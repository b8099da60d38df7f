/** Who may map what, over every run of the memory gates: answers, regions and credentials. */
module Credentials {
  import opened Layout
  import opened LayoutProofs

  // ---- Answers ---------------------------------------------------------------------------------------------

  /** The caller's table has a free slot. */
  ghost predicate HasSlot(m: Memory, cur: nat) {
    cur < |m.tables| && exists i :: 0 <= i < SLOTS && IsFree(m.tables[cur][i])
  }

  /** Nothing but the answer differs. */
  ghost predicate OnlyAnswered(m: Memory, q: Memory) {
    q == m.(result := q.result)
  }

  /** The caller owns the device and the security manager grants it. */
  predicate Entitled(m: Memory, cur: nat, d: nat, allowed: bool) {
    d < |m.devs| && m.devs[d].owner == cur && allowed
  }

  /** A device is mapped exactly for its owner, with its capability, while it is not mapped and a
      slot is free; every refusal has its own answer and changes nothing. */
  lemma MapDeviceAnswers(m: Memory, cur: nat, d: nat, allowed: bool)
    requires Fixed(m) && cur < |m.tables|
    ensures var q := MapDevice(m, cur, d, allowed);
            && (q.result == Denied <==> d < |m.devs| && !Entitled(m, cur, d, allowed))
            && (q.result == Invalid <==> d >= |m.devs| || (Entitled(m, cur, d, allowed) && m.devs[d].mapped))
            && (q.result == Busy <==> Entitled(m, cur, d, allowed) && !m.devs[d].mapped && !HasSlot(m, cur))
            && (q.result == Okay <==> Entitled(m, cur, d, allowed) && !m.devs[d].mapped && HasSlot(m, cur))
            && (if q.result == Okay then q.devs == m.devs[d := m.devs[d].(mapped := true)] else OnlyAnswered(m, q))
  {
    hide Forge, BaseOf, IsFree, Aligned;
  }

  /** A device is unmapped exactly for its owner, with its capability, while it is mapped. */
  lemma UnmapDeviceAnswers(m: Memory, cur: nat, d: nat, allowed: bool)
    requires MemInv(m) && cur < |m.tables|
    ensures var q := UnmapDevice(m, cur, d, allowed);
            && (q.result == Denied <==> d < |m.devs| && !Entitled(m, cur, d, allowed))
            && (q.result == Invalid <==> d >= |m.devs| || (Entitled(m, cur, d, allowed) && !m.devs[d].mapped))
            && (q.result == Okay <==> Entitled(m, cur, d, allowed) && m.devs[d].mapped)
            && (if q.result == Okay then q.devs == m.devs[d := m.devs[d].(mapped := false)] else OnlyAnswered(m, q))
  {
    if Entitled(m, cur, d, allowed) && m.devs[d].mapped {
      DeviceFound(m, d);
    }
    hide Forge, BaseOf, IsFree, Aligned, DevicesAgree, OwnersAgree;
  }

  /** The caller is the owner of the memory or the task it is lent to. */
  predicate Knows(m: Memory, cur: nat, h: nat) {
    h < |m.shms| && cur in {m.shms[h].owner.task, m.shms[h].user.task}
  }

  /** What the caller may do: as owner, if it is the owner. */
  function Rights(m: Memory, cur: nat, h: nat): Party
    requires h < |m.shms|
  {
    if m.shms[h].owner.task == cur then m.shms[h].owner else m.shms[h].user
  }

  /** The memory is one that can be mapped, and the caller's credentials say that it may. */
  predicate Permitted(m: Memory, cur: nat, h: nat) {
    Knows(m, cur, h) && m.shms[h].mappable && Rights(m, cur, h).config.mappable
  }

  /** A shared memory is mapped exactly for a party whose credentials allow it, while that party has
      not mapped it and a slot is free. */
  lemma MapShmAnswers(m: Memory, cur: nat, h: nat)
    requires Tasks(m) && cur < |m.tables|
    ensures var q := MapShm(m, cur, h);
            && (q.result == Invalid <==> !Knows(m, cur, h))
            && (q.result == Denied <==> Knows(m, cur, h) && !Permitted(m, cur, h))
            && (q.result == AlreadyMapped <==> Permitted(m, cur, h) && Rights(m, cur, h).mapped)
            && (q.result == Busy <==> Permitted(m, cur, h) && !Rights(m, cur, h).mapped && !HasSlot(m, cur))
            && (q.result == Okay <==> Permitted(m, cur, h) && !Rights(m, cur, h).mapped && HasSlot(m, cur))
            && (q.result == Okay ==> h < |q.shms| && Rights(q, cur, h) == Rights(m, cur, h).(mapped := true))
            && (q.result != Okay ==> OnlyAnswered(m, q))
  {
    hide Forge, BaseOf, IsFree;
  }

  /** A shared memory is unmapped exactly for a party that has mapped it; a stranded user panics. */
  lemma UnmapShmAnswers(m: Memory, cur: nat, h: nat)
    requires MemInv(m) && cur < |m.tables| && !Stranded(m, cur, h)
    ensures var q := UnmapShm(m, cur, h);
            && (q.result == Invalid <==> !Knows(m, cur, h) || !Rights(m, cur, h).mapped)
            && (q.result == Okay <==> Knows(m, cur, h) && Rights(m, cur, h).mapped)
            && (q.result == Okay ==> h < |q.shms| && Rights(q, cur, h) == Rights(m, cur, h).(mapped := false))
            && (q.result != Okay ==> OnlyAnswered(m, q))
  {
    if Knows(m, cur, h) && Rights(m, cur, h).mapped {
      var i := UnmapShmEffect(m, cur, h);
    }
    hide Forge, BaseOf, IsFree, Agreed;
  }

  /** Credentials are set exactly by the owner, for a known task, while the owner has not mapped the
      memory. */
  lemma SetCredsAnswers(m: Memory, cur: nat, h: nat, target: nat, config: Config)
    requires Tasks(m)
    ensures var q := SetCreds(m, cur, h, target, config);
            var known := Knows(m, cur, h) && target < |m.tables|;
            && (q.result == Invalid <==> !known)
            && (q.result == Denied <==> known && m.shms[h].owner.task != cur)
            && (q.result == Busy <==> known && m.shms[h].owner.task == cur && m.shms[h].owner.mapped)
            && (q.result == Okay <==> known && m.shms[h].owner.task == cur && !m.shms[h].owner.mapped)
            && (q.result != Okay ==> OnlyAnswered(m, q))
  {
  }

  // ---- Regions ---------------------------------------------------------------------------------------------

  /** A region as the memory protection unit reads its two registers. */
  datatype Region = Region(base: bv32, limit: bv32, user: bool, writable: bool, executable: bool, attrs: bv32,
                           enabled: bool)

  /** The last address of the 32-byte block that an address lies in. */
  function Upper(limit: bv32): bv32 {
    limit | 0x1F
  }

  function RegionOf(r: Resource): Region {
    Region(r.rbar & 0xFFFFFFE0, Upper(r.rlar), r.rbar & 0x2 != 0, r.rbar & 0x4 == 0, r.rbar & 0x1 == 0,
           (r.rlar >> 1) & 0x7, r.rlar & 0x1 != 0)
  }

  lemma ForgeRegion(base: bv32, limit: bv32, writable: bool, attrs: bv32)
    requires Aligned(base) && attrs <= 7
    ensures RegionOf(Forge(base, limit, writable, attrs)) ==
            Region(base, Upper(limit), true, writable, false, attrs, true)
  {
  }

  lemma TextRegion(base: bv32, limit: bv32)
    requires Aligned(base)
    ensures RegionOf(ForgeText(base, limit)) ==
            Region(base, Upper(limit), true, false, true, ATTR_NORMAL_NOCACHE, true)
  {
  }

  /** A device's region: all of it, for the user to read and write, never to execute. */
  function DeviceRegion(d: Device): Region {
    Region(d.base, Upper(d.limit), true, true, false, ATTR_DEVICE, true)
  }

  function ShmRegion(s: Shm, writable: bool): Region {
    Region(s.base, Upper(s.limit), true, writable, false, ATTR_NORMAL_NOCACHE, true)
  }

  /** The slot is free, or exactly the region of a device or of a shared memory. */
  ghost predicate Fits(m: Memory, r: Resource) {
    || r == UNMAPPED
    || (exists d :: 0 <= d < |m.devs| && RegionOf(r) == DeviceRegion(m.devs[d]))
    || (exists h :: 0 <= h < |m.shms| && RegionOf(r) == ShmRegion(m.shms[h], RegionOf(r).writable))
  }

  /** Every slot beyond text and data fits. */
  ghost predicate Furnished(m: Memory) {
    forall t, i :: 0 <= t < |m.tables| && 2 <= i < SLOTS ==> Fits(m, m.tables[t][i])
  }

  /** The same devices and memories, at the same addresses. */
  ghost predicate SameBoard(m: Memory, q: Memory) {
    && |q.devs| == |m.devs| && |q.shms| == |m.shms|
    && (forall d :: 0 <= d < |m.devs| ==> q.devs[d].base == m.devs[d].base && q.devs[d].limit == m.devs[d].limit)
    && (forall h :: 0 <= h < |m.shms| ==>
          && q.shms[h].base == m.shms[h].base && q.shms[h].limit == m.shms[h].limit
          && q.shms[h].owner.task == m.shms[h].owner.task)
  }

  lemma FitsSame(m: Memory, q: Memory, r: Resource)
    requires SameBoard(m, q) && Fits(m, r)
    ensures Fits(q, r)
  {
    hide RegionOf, Upper;
    if d :| 0 <= d < |m.devs| && RegionOf(r) == DeviceRegion(m.devs[d]) {
      assert RegionOf(r) == DeviceRegion(q.devs[d]);
    } else if h :| 0 <= h < |m.shms| && RegionOf(r) == ShmRegion(m.shms[h], RegionOf(r).writable) {
      assert RegionOf(r) == ShmRegion(q.shms[h], RegionOf(r).writable);
    }
  }

  /** Tables as before, but for slot `i` of task `t`. */
  ghost predicate Rewritten(m: Memory, q: Memory, t: nat, i: nat, r: Resource) {
    && t < |m.tables| == |q.tables| && i < SLOTS && q.tables[t] == m.tables[t][i := r]
    && forall u :: 0 <= u < |m.tables| && u != t ==> q.tables[u] == m.tables[u]
  }

  lemma FurnishedSlot(m: Memory, q: Memory, t: nat, i: nat, r: Resource)
    requires Furnished(m) && SameBoard(m, q) && Rewritten(m, q, t, i, r) && 2 <= i && Fits(m, r)
    ensures Furnished(q)
  {
    hide Fits;
    forall u, j | 0 <= u < |q.tables| && 2 <= j < SLOTS ensures Fits(q, q.tables[u][j]) {
      FitsSame(m, q, if u == t && j == i then r else m.tables[u][j]);
    }
  }

  lemma FurnishedSame(m: Memory, q: Memory)
    requires Furnished(m) && SameBoard(m, q) && q.tables == m.tables
    ensures Furnished(q)
  {
    hide Fits;
    forall u, j | 0 <= u < |q.tables| && 2 <= j < SLOTS ensures Fits(q, q.tables[u][j]) {
      FitsSame(m, q, m.tables[u][j]);
    }
  }

  lemma MapDeviceWrites(m: Memory, cur: nat, d: nat, allowed: bool)
    requires Tasks(m) && cur < |m.tables|
    ensures var q := MapDevice(m, cur, d, allowed);
            && SameBoard(m, q)
            && (q.tables == m.tables ||
                (d < |m.devs| && Rewritten(m, q, cur, FreeFrom(m.tables[cur], 0),
                                           Forge(m.devs[d].base, m.devs[d].limit, true, ATTR_DEVICE))))
  {
    hide Forge, IsFree;
  }

  lemma UnmapDeviceWrites(m: Memory, cur: nat, d: nat, allowed: bool)
    requires Tasks(m) && cur < |m.tables|
    ensures var q := UnmapDevice(m, cur, d, allowed);
            && SameBoard(m, q)
            && (q.tables == m.tables ||
                (d < |m.devs| && Rewritten(m, q, cur, FindFrom(m.tables[cur], m.devs[d].base, 0), UNMAPPED)))
  {
    hide BaseOf;
  }

  lemma MapShmWrites(m: Memory, cur: nat, h: nat)
    requires Tasks(m) && cur < |m.tables|
    ensures var q := MapShm(m, cur, h);
            && SameBoard(m, q)
            && (q.tables == m.tables ||
                (h < |m.shms| && Rewritten(m, q, cur, FreeFrom(m.tables[cur], 0),
                                           Forge(m.shms[h].base, m.shms[h].limit, Rights(m, cur, h).config.rw,
                                                 ATTR_NORMAL_NOCACHE))))
  {
    hide Forge, IsFree;
  }

  lemma UnmapShmWrites(m: Memory, cur: nat, h: nat)
    requires Tasks(m) && cur < |m.tables|
    ensures var q := UnmapShm(m, cur, h);
            && SameBoard(m, q)
            && (q.tables == m.tables ||
                (h < |m.shms| && Rewritten(m, q, cur, FindFrom(m.tables[cur], m.shms[h].base, 0), UNMAPPED)))
  {
    hide BaseOf;
  }

  lemma SetCredsWrites(m: Memory, cur: nat, h: nat, target: nat, config: Config)
    requires Tasks(m)
    ensures var q := SetCreds(m, cur, h, target, config); SameBoard(m, q) && q.tables == m.tables
  {
  }

  /** What the searches find lies beyond text and data, and a forged region fits. */
  lemma DeviceSlots(m: Memory, cur: nat, d: nat)
    requires Fixed(m) && cur < |m.tables| && d < |m.devs|
    ensures FreeFrom(m.tables[cur], 0) >= 2 && FindFrom(m.tables[cur], m.devs[d].base, 0) >= 2
    ensures Fits(m, Forge(m.devs[d].base, m.devs[d].limit, true, ATTR_DEVICE))
  {
    hide Forge, BaseOf, IsFree, TextData, RegionOf, Upper, Aligned;
    SearchAbove(m, cur, m.devs[d].base);
    ForgeRegion(m.devs[d].base, m.devs[d].limit, true, ATTR_DEVICE);
  }

  lemma ShmSlots(m: Memory, cur: nat, h: nat, rw: bool)
    requires Fixed(m) && cur < |m.tables| && h < |m.shms|
    ensures FreeFrom(m.tables[cur], 0) >= 2 && FindFrom(m.tables[cur], m.shms[h].base, 0) >= 2
    ensures Fits(m, Forge(m.shms[h].base, m.shms[h].limit, rw, ATTR_NORMAL_NOCACHE))
  {
    hide Forge, BaseOf, IsFree, TextData, RegionOf, Upper, Aligned;
    SearchAbove(m, cur, m.shms[h].base);
    ForgeRegion(m.shms[h].base, m.shms[h].limit, rw, ATTR_NORMAL_NOCACHE);
  }

  /** Either nothing was written, or something that fits beyond text and data. */
  lemma FurnishedAfter(m: Memory, q: Memory, t: nat, i: nat, r: Resource)
    requires Furnished(m) && SameBoard(m, q)
    requires q.tables == m.tables || (Rewritten(m, q, t, i, r) && 2 <= i && Fits(m, r))
    ensures Furnished(q)
  {
    hide Furnished, Fits, SameBoard;
    if q.tables == m.tables {
      FurnishedSame(m, q);
    } else {
      FurnishedSlot(m, q, t, i, r);
    }
  }

  lemma FurnishedDevice(m: Memory, cur: nat, d: nat, allowed: bool)
    requires Fixed(m) && Tasks(m) && Furnished(m) && cur < |m.tables|
    ensures Furnished(MapDevice(m, cur, d, allowed)) && SameBoard(m, MapDevice(m, cur, d, allowed))
    ensures Furnished(UnmapDevice(m, cur, d, allowed)) && SameBoard(m, UnmapDevice(m, cur, d, allowed))
  {
    hide Furnished, Fits, SameBoard, Rewritten, MapDevice, UnmapDevice, Fixed, Forge;
    MapDeviceWrites(m, cur, d, allowed);
    UnmapDeviceWrites(m, cur, d, allowed);
    if d < |m.devs| {
      DeviceSlots(m, cur, d);
      FreeFits(m);
      FurnishedAfter(m, MapDevice(m, cur, d, allowed), cur, FreeFrom(m.tables[cur], 0),
                     Forge(m.devs[d].base, m.devs[d].limit, true, ATTR_DEVICE));
      FurnishedAfter(m, UnmapDevice(m, cur, d, allowed), cur, FindFrom(m.tables[cur], m.devs[d].base, 0), UNMAPPED);
    } else {
      FurnishedSame(m, MapDevice(m, cur, d, allowed));
      FurnishedSame(m, UnmapDevice(m, cur, d, allowed));
    }
  }

  lemma FreeFits(m: Memory)
    ensures Fits(m, UNMAPPED)
  {
  }

  lemma FurnishedShm(m: Memory, cur: nat, h: nat)
    requires Fixed(m) && Tasks(m) && Furnished(m) && cur < |m.tables|
    ensures Furnished(MapShm(m, cur, h)) && SameBoard(m, MapShm(m, cur, h))
    ensures Furnished(UnmapShm(m, cur, h)) && SameBoard(m, UnmapShm(m, cur, h))
  {
    hide Furnished, Fits, SameBoard, Rewritten, MapShm, UnmapShm, Fixed, Forge;
    MapShmWrites(m, cur, h);
    UnmapShmWrites(m, cur, h);
    if h < |m.shms| {
      var rw := Rights(m, cur, h).config.rw;
      ShmSlots(m, cur, h, rw);
      FreeFits(m);
      FurnishedAfter(m, MapShm(m, cur, h), cur, FreeFrom(m.tables[cur], 0),
                     Forge(m.shms[h].base, m.shms[h].limit, rw, ATTR_NORMAL_NOCACHE));
      FurnishedAfter(m, UnmapShm(m, cur, h), cur, FindFrom(m.tables[cur], m.shms[h].base, 0), UNMAPPED);
    } else {
      FurnishedSame(m, MapShm(m, cur, h));
      FurnishedSame(m, UnmapShm(m, cur, h));
    }
  }

  lemma FurnishedServe(m: Memory, c: Call)
    requires Agreed(m) && Tasks(m) && Furnished(m) && c.task < |m.tables|
    ensures Furnished(Serve(m, c.task, c.request)) && SameBoard(m, Serve(m, c.task, c.request))
  {
    hide MapDevice, UnmapDevice, MapShm, UnmapShm, SetCreds, DevicesAgree, OwnersAgree, Furnished, Fixed, SameBoard;
    SameBoardSelf(m);
    match c.request
    case DoMapDevice(d, allowed) => FurnishedDevice(m, c.task, d, allowed);
    case DoUnmapDevice(d, allowed) => FurnishedDevice(m, c.task, d, allowed);
    case DoMapShm(h) => FurnishedShm(m, c.task, h);
    case DoUnmapShm(h) => FurnishedShm(m, c.task, h);
    case DoSetCreds(h, target, config) =>
      SetCredsWrites(m, c.task, h, target, config);
      FurnishedSame(m, SetCreds(m, c.task, h, target, config));
  }

  lemma SameBoardTrans(a: Memory, b: Memory, c: Memory)
    requires SameBoard(a, b) && SameBoard(b, c)
    ensures SameBoard(a, c)
  {
  }

  lemma {:induction false} RunFurnished(trace: seq<Memory>, calls: seq<Call>, k: nat)
    requires MemRun(trace, calls) && Agreed(trace[0]) && Furnished(trace[0]) && k < |trace|
    ensures Agreed(trace[k]) && Furnished(trace[k]) && SameBoard(trace[0], trace[k])
  {
    hide Agreed, Serve, Furnished, SameBoard;
    if k == 0 {
      SameBoardSelf(trace[0]);
    } else {
      RunFurnished(trace, calls, k - 1);
      RunAgrees(trace, calls, k);
      assert Served(trace[k - 1], calls[k - 1], trace[k - 1 + 1]);
      FurnishedServe(trace[k - 1], calls[k - 1]);
      SameBoardTrans(trace[0], trace[k - 1], trace[k]);
    }
  }

  lemma SameBoardSelf(m: Memory)
    ensures SameBoard(m, m)
  {
  }

  lemma BootFurnished(images: seq<Image>, devices: seq<DeviceMeta>, memories: seq<ShmMeta>)
    ensures Furnished(BootMemory(images, devices, memories))
  {
    hide Forge, ForgeText;
  }

  // ---- Write or execute --------------------------------------------------------------------------------------

  /** No task may both write and execute any memory, and everything a task sees is its to see. */
  ghost predicate WriteXorExecute(m: Memory) {
    forall t, i :: 0 <= t < |m.tables| && 0 <= i < SLOTS && RegionOf(m.tables[t][i]).enabled ==>
      !(RegionOf(m.tables[t][i]).writable && RegionOf(m.tables[t][i]).executable)
  }

  lemma FitsGuarded(m: Memory, r: Resource)
    requires Fits(m, r)
    ensures RegionOf(r).enabled ==> !RegionOf(r).executable
  {
    assert !RegionOf(UNMAPPED).enabled;
  }

  lemma BootGuarded(im: Image)
    requires Aligned(im.text) && Aligned(im.data)
    ensures var t := BootTable(im);
            && RegionOf(t[0]) == Region(im.text, Upper(im.textLimit), true, false, true, ATTR_NORMAL_NOCACHE, true)
            && RegionOf(t[1]) == Region(im.data, Upper(im.dataLimit), true, true, false, ATTR_NORMAL_NOCACHE, true)
  {
    TextRegion(im.text, im.textLimit);
    ForgeRegion(im.data, im.dataLimit, true, ATTR_NORMAL_NOCACHE);
    hide Forge, ForgeText, RegionOf, Upper, Aligned;
  }

  /** In every state of every run from boot a task's text can be executed and not written, its data
      written and not executed, every other slot is free or exactly the region of a device or shared
      memory, and no slot can be both written and executed. */
  lemma RunGuarded(images: seq<Image>, devices: seq<DeviceMeta>, memories: seq<ShmMeta>, trace: seq<Memory>,
                   calls: seq<Call>, k: nat)
    requires BoardOk(images, devices, memories) && MemRun(trace, calls) && k < |trace|
    requires trace[0] == BootMemory(images, devices, memories)
    ensures |trace[k].tables| == |images| && Furnished(trace[k]) && WriteXorExecute(trace[k])
    ensures forall t :: 0 <= t < |images| ==>
              var text, data := RegionOf(trace[k].tables[t][0]), RegionOf(trace[k].tables[t][1]);
              && text == Region(images[t].text, Upper(images[t].textLimit), true, false, true,
                                ATTR_NORMAL_NOCACHE, true)
              && data == Region(images[t].data, Upper(images[t].dataLimit), true, true, false,
                                ATTR_NORMAL_NOCACHE, true)
  {
    BootFurnished(images, devices, memories);
    MemoryBoots(images, devices, memories);
    RunFurnished(trace, calls, k);
    TextDataForever(trace, calls, k);
    forall t | 0 <= t < |images|
      ensures RegionOf(trace[k].tables[t][0]) == RegionOf(BootTable(images[t])[0])
      ensures RegionOf(trace[k].tables[t][1]) == RegionOf(BootTable(images[t])[1])
    {
      assert trace[0].tables[t] == BootTable(images[t]);
    }
    hide MemRun, Agreed, BootMemory, RegionOf, Upper, Aligned, Fits, BootTable, UsersAgree, SameBoard;
    forall t | 0 <= t < |images| {
      BootGuarded(images[t]);
    }
    forall t, i | 0 <= t < |trace[k].tables| && 2 <= i < SLOTS
      ensures RegionOf(trace[k].tables[t][i]).enabled ==> !RegionOf(trace[k].tables[t][i]).executable
    {
      FitsGuarded(trace[k], trace[k].tables[t][i]);
    }
  }

  // ---- Credentials over runs ---------------------------------------------------------------------------------

  const NO_RIGHTS := Config(false, false, false)

  /** The call is a request for credentials of memory `h`, and is answered OK. */
  predicate Granted(m: Memory, c: Call, q: Memory, h: nat) {
    c.request.DoSetCreds? && c.request.h == h && !m.panicked && q.result == Okay
  }

  /** The rights the last granted request addressed to owner `o` of memory `h` asked for. */
  function OwnerAsked(trace: seq<Memory>, calls: seq<Call>, h: nat, o: nat, k: nat): Config
    requires k <= |calls| < |trace|
  {
    if k == 0 then NO_RIGHTS
    else if Granted(trace[k - 1], calls[k - 1], trace[k], h) && calls[k - 1].request.target == o
    then calls[k - 1].request.config
    else OwnerAsked(trace, calls, h, o, k - 1)
  }

  /** The task and the rights of the last granted request addressed to another task than the owner. */
  function UserAsked(trace: seq<Memory>, calls: seq<Call>, h: nat, o: nat, k: nat): (nat, Config)
    requires k <= |calls| < |trace|
  {
    if k == 0 then (o, NO_RIGHTS)
    else if Granted(trace[k - 1], calls[k - 1], trace[k], h) && calls[k - 1].request.target != o
    then (calls[k - 1].request.target, calls[k - 1].request.config)
    else UserAsked(trace, calls, h, o, k - 1)
  }

  lemma CredsFollow(m: Memory, c: Call, h: nat)
    requires Tasks(m) && c.task < |m.tables| && h < |m.shms|
    ensures var q, o := Serve(m, c.task, c.request), m.shms[h].owner.task;
            && h < |q.shms| && q.shms[h].owner.task == o
            && q.shms[h].owner.config ==
                 (if Granted(m, c, q, h) && c.request.target == o then c.request.config else m.shms[h].owner.config)
            && (q.shms[h].user.task, q.shms[h].user.config) ==
                 (if Granted(m, c, q, h) && c.request.target != o then (c.request.target, c.request.config)
                  else (m.shms[h].user.task, m.shms[h].user.config))
  {
    hide Forge, BaseOf, IsFree;
  }

  /** In every state of every run from boot, the owner of a memory and the task it is lent to have
      exactly the rights of the last granted request addressed to them, and none before. */
  lemma {:induction false} CredentialsRun(images: seq<Image>, devices: seq<DeviceMeta>, memories: seq<ShmMeta>,
                                          trace: seq<Memory>, calls: seq<Call>, h: nat, k: nat)
    requires BoardOk(images, devices, memories) && MemRun(trace, calls) && k < |trace| && h < |memories|
    requires trace[0] == BootMemory(images, devices, memories)
    ensures h < |trace[k].shms| && trace[k].shms[h].owner.task == memories[h].owner
    ensures trace[k].shms[h].owner.config == OwnerAsked(trace, calls, h, memories[h].owner, k)
    ensures (trace[k].shms[h].user.task, trace[k].shms[h].user.config) ==
            UserAsked(trace, calls, h, memories[h].owner, k)
  {
    hide BoardOk, Serve, Granted;
    if k > 0 {
      CredentialsRun(images, devices, memories, trace, calls, h, k - 1);
      assert Served(trace[k - 1], calls[k - 1], trace[k - 1 + 1]);
      CredsFollow(trace[k - 1], calls[k - 1], h);
    }
  }

  lemma SlotRegion(m: Memory, t: nat, i: nat, h: nat)
    requires Fixed(m) && Furnished(m) && t < |m.tables| && i < SLOTS && h < |m.shms|
    requires BaseOf(m.tables[t][i]) == m.shms[h].base
    ensures RegionOf(m.tables[t][i]) == ShmRegion(m.shms[h], Writable(m.tables[t][i]))
  {
    var r := m.tables[t][i];
    assert TextData(m.tables[t], m);
    assert i >= 2;
    RegionParts(r);
    FreeBase(UNMAPPED);
    hide RegionOf, BaseOf, Writable, Upper, IsFree, TextData;
    assert Fits(m, r);
    assert r != UNMAPPED by {
      NotZero(m, h);
    }
  }

  lemma NotZero(m: Memory, h: nat)
    requires Board(m) && h < |m.shms|
    ensures m.shms[h].base != 0
  {
    assert Aligned(m.shms[h].base);
  }

  lemma RegionParts(r: Resource)
    ensures RegionOf(r).base == BaseOf(r) && RegionOf(r).writable == Writable(r)
  {
  }

  /** In every state of every run from boot, an owner that has its memory mapped has exactly its
      region in one slot, writable if and only if the last granted request addressed to the owner
      asked for that. */
  lemma OwnerWritable(images: seq<Image>, devices: seq<DeviceMeta>, memories: seq<ShmMeta>, trace: seq<Memory>,
                      calls: seq<Call>, h: nat, k: nat) returns (i: nat)
    requires BoardOk(images, devices, memories) && MemRun(trace, calls) && k < |trace| && h < |memories|
    requires trace[0] == BootMemory(images, devices, memories)
    requires h < |trace[k].shms| && trace[k].shms[h].owner.mapped
    ensures memories[h].owner < |trace[k].tables| && i < SLOTS
    ensures RegionOf(trace[k].tables[memories[h].owner][i]) ==
            ShmRegion(trace[k].shms[h], OwnerAsked(trace, calls, h, memories[h].owner, k).rw)
  {
    BootFurnished(images, devices, memories);
    MemoryBoots(images, devices, memories);
    RunFurnished(trace, calls, k);
    CredentialsRun(images, devices, memories, trace, calls, h, k);
    hide MemRun, BoardOk, BootMemory, Furnished, RegionOf, BaseOf, Writable, OwnerAsked, SameBoard, UsersAgree;
    var m, o := trace[k], memories[h].owner;
    assert OwnerSlot(m.tables[o], m.shms[h]);
    i :| 0 <= i < SLOTS && BaseOf(m.tables[o][i]) == m.shms[h].base;
    SlotRegion(m, o, i, h);
  }

  /** A successful mapping puts exactly the memory's region into one slot of the caller, writable if
      and only if the caller's present rights say so; and they say that it may map at all. */
  lemma MapShmGives(m: Memory, cur: nat, h: nat) returns (i: nat)
    requires Fixed(m) && Tasks(m) && cur < |m.tables| && MapShm(m, cur, h).result == Okay
    ensures h < |m.shms| && Rights(m, cur, h).config.mappable && cur < |MapShm(m, cur, h).tables| && i < SLOTS
    ensures RegionOf(MapShm(m, cur, h).tables[cur][i]) == ShmRegion(m.shms[h], Rights(m, cur, h).config.rw)
  {
    MapShmAnswers(m, cur, h);
    var s := m.shms[h];
    i := FreeFrom(m.tables[cur], 0);
    assert Aligned(s.base);
    ForgeRegion(s.base, s.limit, Rights(m, cur, h).config.rw, ATTR_NORMAL_NOCACHE);
    hide Forge, RegionOf, Aligned, IsFree, Board, TextData, Upper;
  }

  /** So a task the memory is lent to gets it as the last granted request addressed to it asked. */
  lemma UserGets(images: seq<Image>, devices: seq<DeviceMeta>, memories: seq<ShmMeta>, trace: seq<Memory>,
                 calls: seq<Call>, h: nat, u: nat, k: nat) returns (i: nat)
    requires BoardOk(images, devices, memories) && MemRun(trace, calls) && k < |calls| && h < |memories|
    requires trace[0] == BootMemory(images, devices, memories) && |trace| == |calls| + 1
    requires calls[k] == Call(u, DoMapShm(h)) && u != memories[h].owner && !trace[k].panicked
    requires trace[k + 1].result == Okay
    ensures var asked := UserAsked(trace, calls, h, memories[h].owner, k);
            && asked.0 == u && asked.1.mappable && h < |trace[k].shms| && u < |trace[k + 1].tables| && i < SLOTS
            && RegionOf(trace[k + 1].tables[u][i]) == ShmRegion(trace[k].shms[h], asked.1.rw)
  {
    MemoryBoots(images, devices, memories);
    RunAgrees(trace, calls, k);
    CredentialsRun(images, devices, memories, trace, calls, h, k);
    assert Served(trace[k], calls[k], trace[k + 1]);
    hide MemRun, BoardOk, BootMemory, RegionOf, UserAsked, MapShm, DevicesAgree, OwnersAgree, Board;
    MapShmAnswers(trace[k], u, h);
    i := MapShmGives(trace[k], u, h);
  }
}
