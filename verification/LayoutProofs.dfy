/** The "mapped" flags agree with the layout tables, over every run of the memory gates. */
module LayoutProofs {
  import opened Layout

  // ---- One table ------------------------------------------------------------

  ghost predicate Occurs(t: Table, b: bv32) {
    exists i :: 0 <= i < SLOTS && BaseOf(t[i]) == b
  }

  /** Exactly one slot holds base `b` when the flag is set, none when it is not. */
  ghost predicate Exactly(t: Table, b: bv32, flag: bool) {
    && (flag <==> Occurs(t, b))
    && forall i, j :: 0 <= i < j < SLOTS ==> !(BaseOf(t[i]) == b && BaseOf(t[j]) == b)
  }

  lemma FreeBase(r: Resource)
    ensures IsFree(r) ==> BaseOf(r) == 0
    ensures BaseOf(UNMAPPED) == 0 && IsFree(UNMAPPED)
  {
  }

  lemma FillOther(t: Table, i: nat, r: Resource, c: bv32, flag: bool)
    requires i < SLOTS && IsFree(t[i]) && c != 0 && BaseOf(r) != c && Exactly(t, c, flag)
    ensures Exactly(t[i := r], c, flag)
  {
    FreeBase(t[i]);
    hide BaseOf, IsFree;
    if flag {
      var k :| 0 <= k < SLOTS && BaseOf(t[k]) == c;
      assert BaseOf(t[i := r][k]) == c;
    }
  }

  lemma FillSame(t: Table, i: nat, r: Resource, b: bv32)
    requires i < SLOTS && b != 0 && BaseOf(r) == b && Exactly(t, b, false)
    ensures Exactly(t[i := r], b, true)
  {
    hide BaseOf;
    assert BaseOf(t[i := r][i]) == b;
  }

  lemma ClearOther(t: Table, i: nat, c: bv32, flag: bool)
    requires i < SLOTS && c != 0 && BaseOf(t[i]) != c && Exactly(t, c, flag)
    ensures Exactly(t[i := UNMAPPED], c, flag)
  {
    FreeBase(t[i]);
    hide BaseOf, IsFree;
    if flag {
      var k :| 0 <= k < SLOTS && BaseOf(t[k]) == c;
      assert BaseOf(t[i := UNMAPPED][k]) == c;
    }
  }

  lemma ClearSame(t: Table, i: nat, b: bv32)
    requires i < SLOTS && b != 0 && BaseOf(t[i]) == b && Exactly(t, b, true)
    ensures Exactly(t[i := UNMAPPED], b, false)
  {
    FreeBase(t[i]);
    hide BaseOf, IsFree;
  }

  // ---- Invariants ------------------------------------------------------------

  /** Text and data occupy the first two slots, at addresses of no device and no shared memory. */
  ghost predicate TextData(t: Table, m: Memory) {
    && !IsFree(t[0]) && !IsFree(t[1])
    && (forall d :: 0 <= d < |m.devs| ==> BaseOf(t[0]) != m.devs[d].base && BaseOf(t[1]) != m.devs[d].base)
    && (forall h :: 0 <= h < |m.shms| ==> BaseOf(t[0]) != m.shms[h].base && BaseOf(t[1]) != m.shms[h].base)
  }

  /** Base addresses are aligned, not zero, and pairwise distinct; every device has a capability. */
  ghost predicate Board(m: Memory) {
    && (forall d :: 0 <= d < |m.devs| ==> Aligned(m.devs[d].base) && m.devs[d].capa != 0)
    && (forall h :: 0 <= h < |m.shms| ==> Aligned(m.shms[h].base))
    && (forall d, e :: 0 <= d < e < |m.devs| ==> m.devs[d].base != m.devs[e].base)
    && (forall h, g :: 0 <= h < g < |m.shms| ==> m.shms[h].base != m.shms[g].base)
    && (forall d, h :: 0 <= d < |m.devs| && 0 <= h < |m.shms| ==> m.devs[d].base != m.shms[h].base)
  }

  ghost predicate Fixed(m: Memory) {
    Tasks(m) && Board(m) && forall t :: 0 <= t < |m.tables| ==> TextData(m.tables[t], m)
  }

  /** A device is flagged mapped exactly when one slot, of its owner, holds its base. */
  ghost predicate DevicesAgree(m: Memory) {
    forall d, t :: 0 <= d < |m.devs| && 0 <= t < |m.tables| ==>
      Exactly(m.tables[t], m.devs[d].base, m.devs[d].mapped && t == m.devs[d].owner)
  }

  /** The slot of a mapped owner is writable exactly when the owner's credentials say so. */
  ghost predicate OwnerSlot(t: Table, s: Shm) {
    && Exactly(t, s.base, s.owner.mapped)
    && forall i :: 0 <= i < SLOTS && BaseOf(t[i]) == s.base ==> (Writable(t[i]) <==> s.owner.config.rw)
  }

  ghost predicate OwnersAgree(m: Memory) {
    forall h :: 0 <= h < |m.shms| && m.shms[h].owner.task < |m.tables| ==>
      OwnerSlot(m.tables[m.shms[h].owner.task], m.shms[h])
  }

  /** Flags and tables agree, whether the kernel has panicked or not. */
  ghost predicate Agreed(m: Memory) {
    Fixed(m) && DevicesAgree(m) && OwnersAgree(m)
  }

  ghost predicate MemInv(m: Memory) {
    !m.panicked && Agreed(m)
  }

  /** The same for the task a shared memory is lent to. */
  ghost predicate UserAgrees(m: Memory, s: Shm) {
    && (s.user.task == s.owner.task ==> !s.user.mapped)
    && forall t :: 0 <= t < |m.tables| && t != s.owner.task ==>
         Exactly(m.tables[t], s.base, t == s.user.task && s.user.mapped)
  }

  ghost predicate UsersAgree(m: Memory) {
    forall h :: 0 <= h < |m.shms| ==> UserAgrees(m, m.shms[h])
  }

  // ---- A slot is filled or cleared ------------------------------------------------------------

  /** Only slot `i` of table `t` differs, and flags may. */
  ghost predicate SlotChanged(m: Memory, q: Memory, t: nat, i: nat, r: Resource) {
    && 2 <= i < SLOTS && t < |m.tables| == |q.tables|
    && q.tables[t] == m.tables[t][i := r]
    && (forall u :: 0 <= u < |m.tables| && u != t ==> q.tables[u] == m.tables[u])
    && |q.devs| == |m.devs| && |q.shms| == |m.shms|
    && (forall d :: 0 <= d < |m.devs| ==> q.devs[d] == m.devs[d].(mapped := q.devs[d].mapped))
    && (forall h :: 0 <= h < |m.shms| ==>
          q.shms[h] == m.shms[h].(owner := m.shms[h].owner.(mapped := q.shms[h].owner.mapped),
                                  user := m.shms[h].user.(mapped := q.shms[h].user.mapped)))
  }

  lemma FixedStays(m: Memory, q: Memory, t: nat, i: nat, r: Resource)
    requires Fixed(m) && SlotChanged(m, q, t, i, r)
    ensures Fixed(q)
  {
    hide BaseOf, IsFree;
    forall u | 0 <= u < |q.tables| ensures TextData(q.tables[u], q) {
      assert TextData(m.tables[u], m);
    }
  }

  /** A slot that took or gave up base `b` does not concern any other base. */
  lemma OtherBase(t: Table, i: nat, r: Resource, b: bv32, c: bv32, flag: bool)
    requires i < SLOTS && c != 0 && c != b && Exactly(t, c, flag)
    requires (IsFree(t[i]) && BaseOf(r) == b) || (BaseOf(t[i]) == b && r == UNMAPPED)
    ensures Exactly(t[i := r], c, flag)
  {
    hide Exactly;
    if IsFree(t[i]) && BaseOf(r) == b {
      FillOther(t, i, r, c, flag);
    } else {
      ClearOther(t, i, c, flag);
    }
  }

  /** Slot `i` of table `t` was free and takes base `b`, or holds base `b` and is freed. */
  ghost predicate Turns(m: Memory, t: nat, i: nat, r: Resource, b: bv32) {
    && t < |m.tables| && i < SLOTS
    && ((IsFree(m.tables[t][i]) && BaseOf(r) == b) || (BaseOf(m.tables[t][i]) == b && r == UNMAPPED))
  }

  lemma DevicesElsewhere(m: Memory, q: Memory, t: nat, i: nat, r: Resource, b: bv32)
    requires Board(m) && DevicesAgree(m) && SlotChanged(m, q, t, i, r) && Turns(m, t, i, r, b)
    ensures forall d, u :: 0 <= d < |m.devs| && 0 <= u < |m.tables| && m.devs[d].base != b ==>
              Exactly(q.tables[u], m.devs[d].base, m.devs[d].mapped && u == m.devs[d].owner)
  {
    forall d, u | 0 <= d < |m.devs| && 0 <= u < |m.tables| && m.devs[d].base != b
      ensures Exactly(q.tables[u], m.devs[d].base, m.devs[d].mapped && u == m.devs[d].owner)
    {
      hide Exactly, BaseOf, IsFree;
      if u == t {
        OtherBase(m.tables[t], i, r, b, m.devs[d].base, m.devs[d].mapped && u == m.devs[d].owner);
      }
    }
  }

  lemma ShmElsewhere(t: Table, i: nat, r: Resource, b: bv32, s: Shm)
    requires i < SLOTS && Aligned(s.base) && s.base != b && OwnerSlot(t, s)
    requires (IsFree(t[i]) && BaseOf(r) == b) || (BaseOf(t[i]) == b && r == UNMAPPED)
    ensures OwnerSlot(t[i := r], s)
  {
    FreeBase(r);
    OtherBase(t, i, r, b, s.base, s.owner.mapped);
    hide BaseOf, IsFree, Writable, Exactly;
  }

  lemma OwnersElsewhere(m: Memory, q: Memory, t: nat, i: nat, r: Resource, b: bv32)
    requires Tasks(m) && Board(m) && OwnersAgree(m) && SlotChanged(m, q, t, i, r) && Turns(m, t, i, r, b)
    ensures forall h :: 0 <= h < |m.shms| && m.shms[h].base != b ==>
              OwnerSlot(q.tables[m.shms[h].owner.task], m.shms[h])
  {
    forall h | 0 <= h < |m.shms| && m.shms[h].base != b ensures OwnerSlot(q.tables[m.shms[h].owner.task], m.shms[h]) {
      hide OwnerSlot, BaseOf, IsFree;
      if m.shms[h].owner.task == t {
        ShmElsewhere(m.tables[t], i, r, b, m.shms[h]);
      }
    }
  }

  lemma UsersElsewhere(m: Memory, q: Memory, t: nat, i: nat, r: Resource, b: bv32)
    requires Tasks(m) && Board(m) && UsersAgree(m) && SlotChanged(m, q, t, i, r) && Turns(m, t, i, r, b)
    ensures forall h :: 0 <= h < |m.shms| && m.shms[h].base != b ==> UserAgrees(q, m.shms[h])
  {
    forall h | 0 <= h < |m.shms| && m.shms[h].base != b ensures UserAgrees(q, m.shms[h]) {
      var s := m.shms[h];
      assert UserAgrees(m, s);
      forall u | 0 <= u < |q.tables| && u != s.owner.task
        ensures Exactly(q.tables[u], s.base, u == s.user.task && s.user.mapped)
      {
        hide Exactly, BaseOf, IsFree;
        if u == t {
          OtherBase(m.tables[t], i, r, b, s.base, u == s.user.task && s.user.mapped);
        }
      }
    }
  }

  // ---- Devices ------------------------------------------------------------

  lemma SearchAbove(m: Memory, t: nat, b: bv32)
    requires Fixed(m) && t < |m.tables|
    ensures FreeFrom(m.tables[t], 0) >= 2
    ensures (exists d :: 0 <= d < |m.devs| && m.devs[d].base == b) ==> FindFrom(m.tables[t], b, 0) >= 2
    ensures (exists h :: 0 <= h < |m.shms| && m.shms[h].base == b) ==> FindFrom(m.tables[t], b, 0) >= 2
  {
    assert TextData(m.tables[t], m);
  }

  /** The device's own flag follows its slot; everything else stays. */
  lemma DeviceTurned(m: Memory, q: Memory, d: nat, i: nat, r: Resource)
    requires MemInv(m) && d < |m.devs| && !q.panicked
    requires SlotChanged(m, q, m.devs[d].owner, i, r) && Turns(m, m.devs[d].owner, i, r, m.devs[d].base)
    requires q.shms == m.shms && q.devs == m.devs[d := m.devs[d].(mapped := !m.devs[d].mapped)]
    requires Exactly(q.tables[m.devs[d].owner], m.devs[d].base, q.devs[d].mapped)
    ensures MemInv(q) && (UsersAgree(m) ==> UsersAgree(q))
  {
    var t, b := m.devs[d].owner, m.devs[d].base;
    FixedStays(m, q, t, i, r);
    DevicesElsewhere(m, q, t, i, r, b);
    OwnersElsewhere(m, q, t, i, r, b);
    hide Exactly, OwnerSlot, TextData, UserAgrees, Turns;
    if UsersAgree(m) {
      UsersElsewhere(m, q, t, i, r, b);
    }
  }

  ghost predicate MapsDevice(m: Memory, cur: nat, d: nat, allowed: bool) {
    && d < |m.devs| && cur == m.devs[d].owner && allowed && !m.devs[d].mapped
    && cur < |m.tables| && FreeFrom(m.tables[cur], 0) < SLOTS
  }

  ghost predicate UnmapsDevice(m: Memory, cur: nat, d: nat, allowed: bool) {
    d < |m.devs| && cur == m.devs[d].owner && allowed && m.devs[d].mapped
  }

  lemma DeviceExactly(m: Memory, d: nat)
    requires MemInv(m) && d < |m.devs|
    ensures Exactly(m.tables[m.devs[d].owner], m.devs[d].base, m.devs[d].mapped) && m.devs[d].base != 0
  {
  }

  /** What a successful mapping does, spelled out. */
  lemma MapDeviceEffect(m: Memory, cur: nat, d: nat, allowed: bool) returns (i: nat, r: Resource)
    requires MemInv(m) && MapsDevice(m, cur, d, allowed)
    ensures var q := MapDevice(m, cur, d, allowed);
            && SlotChanged(m, q, cur, i, r) && Turns(m, cur, i, r, m.devs[d].base) && !q.panicked && q.shms == m.shms
            && q.devs == m.devs[d := m.devs[d].(mapped := true)]
            && Exactly(q.tables[cur], m.devs[d].base, true)
  {
    var dev := m.devs[d];
    i, r := FreeFrom(m.tables[cur], 0), Forge(dev.base, dev.limit, true, ATTR_DEVICE);
    ForgeBase(dev.base, dev.limit, true, ATTR_DEVICE);
    DeviceExactly(m, d);
    SearchAbove(m, cur, dev.base);
    hide Forge, Exactly, BaseOf, IsFree, DevicesAgree, OwnersAgree, TextData;
    FillSame(m.tables[cur], i, r, dev.base);
  }

  lemma UnmapDeviceEffect(m: Memory, cur: nat, d: nat, allowed: bool) returns (i: nat)
    requires MemInv(m) && UnmapsDevice(m, cur, d, allowed)
    ensures var q := UnmapDevice(m, cur, d, allowed);
            && SlotChanged(m, q, cur, i, UNMAPPED) && Turns(m, cur, i, UNMAPPED, m.devs[d].base)
            && !q.panicked && q.shms == m.shms
            && q.devs == m.devs[d := m.devs[d].(mapped := false)]
            && Exactly(q.tables[cur], m.devs[d].base, false)
  {
    DeviceFound(m, d);
    var dev := m.devs[d];
    i := FindFrom(m.tables[cur], dev.base, 0);
    DeviceExactly(m, d);
    SearchAbove(m, cur, dev.base);
    hide Exactly, BaseOf, IsFree, DevicesAgree, OwnersAgree, TextData;
    ClearSame(m.tables[cur], i, dev.base);
  }

  lemma MapDeviceKeeps(m: Memory, cur: nat, d: nat, allowed: bool)
    requires MemInv(m)
    ensures MemInv(MapDevice(m, cur, d, allowed))
    ensures UsersAgree(m) ==> UsersAgree(MapDevice(m, cur, d, allowed))
  {
    var q := MapDevice(m, cur, d, allowed);
    if MapsDevice(m, cur, d, allowed) {
      var i, r := MapDeviceEffect(m, cur, d, allowed);
      hide MapDevice, MemInv, SlotChanged, Turns, Exactly;
      DeviceTurned(m, q, d, i, r);
    } else {
      Unchanged(m, q);
    }
  }

  lemma Unchanged(m: Memory, q: Memory)
    requires MemInv(m) && q.tables == m.tables && q.devs == m.devs && q.shms == m.shms && !q.panicked
    ensures MemInv(q) && (UsersAgree(m) ==> UsersAgree(q))
  {
    hide Exactly, OwnerSlot;
    assert forall t :: 0 <= t < |q.tables| ==>
             TextData(m.tables[t], m) && (TextData(m.tables[t], m) ==> TextData(q.tables[t], q));
    if UsersAgree(m) {
      assert forall h :: 0 <= h < |m.shms| ==>
               UserAgrees(m, m.shms[h]) && (UserAgrees(m, m.shms[h]) ==> UserAgrees(q, m.shms[h]));
    }
  }

  /** A mapped device is always found in its owner's table, so unmapping it never panics. */
  lemma DeviceFound(m: Memory, d: nat)
    requires MemInv(m) && d < |m.devs| && m.devs[d].mapped
    ensures FindFrom(m.tables[m.devs[d].owner], m.devs[d].base, 0) < SLOTS
  {
    assert Exactly(m.tables[m.devs[d].owner], m.devs[d].base, true);
  }

  lemma UnmapDeviceKeeps(m: Memory, cur: nat, d: nat, allowed: bool)
    requires MemInv(m)
    ensures MemInv(UnmapDevice(m, cur, d, allowed))
    ensures UsersAgree(m) ==> UsersAgree(UnmapDevice(m, cur, d, allowed))
  {
    var q := UnmapDevice(m, cur, d, allowed);
    if UnmapsDevice(m, cur, d, allowed) {
      var i := UnmapDeviceEffect(m, cur, d, allowed);
      hide UnmapDevice, MemInv, SlotChanged, Turns, Exactly;
      DeviceTurned(m, q, d, i, UNMAPPED);
    } else {
      Unchanged(m, q);
    }
  }

  // ---- Shared memories ------------------------------------------------------------

  ghost predicate Flipped(m: Memory, q: Memory, h: nat, role: Role) {
    && h < |m.shms| && q.devs == m.devs && !q.panicked
    && q.shms == m.shms[h := SetMapped(m.shms[h], role, !PartyOf(m.shms[h], role).mapped)]
  }

  /** The owner's flag follows the owner's slot. */
  lemma OwnerTurned(m: Memory, q: Memory, h: nat, i: nat, r: Resource)
    requires MemInv(m) && Flipped(m, q, h, Owner)
    requires SlotChanged(m, q, m.shms[h].owner.task, i, r) && Turns(m, m.shms[h].owner.task, i, r, m.shms[h].base)
    requires OwnerSlot(q.tables[m.shms[h].owner.task], q.shms[h])
    ensures MemInv(q) && (UsersAgree(m) ==> UsersAgree(q))
  {
    var t, b := m.shms[h].owner.task, m.shms[h].base;
    FixedStays(m, q, t, i, r);
    DevicesElsewhere(m, q, t, i, r, b);
    OwnersElsewhere(m, q, t, i, r, b);
    hide Exactly, OwnerSlot, TextData, Turns;
    if UsersAgree(m) {
      UsersElsewhere(m, q, t, i, r, b);
      assert UserAgrees(m, m.shms[h]);
      assert UserAgrees(q, q.shms[h]);
    }
  }

  /** A change in another task's table does not concern the owner. */
  lemma UserTurned(m: Memory, q: Memory, h: nat, t: nat, i: nat, r: Resource)
    requires MemInv(m) && Flipped(m, q, h, User) && t != m.shms[h].owner.task && t == m.shms[h].user.task
    requires SlotChanged(m, q, t, i, r) && Turns(m, t, i, r, m.shms[h].base)
    ensures MemInv(q)
    ensures UsersAgree(m) && Exactly(q.tables[t], m.shms[h].base, q.shms[h].user.mapped) ==> UsersAgree(q)
  {
    var b := m.shms[h].base;
    FixedStays(m, q, t, i, r);
    DevicesElsewhere(m, q, t, i, r, b);
    OwnersElsewhere(m, q, t, i, r, b);
    assert OwnerSlot(m.tables[m.shms[h].owner.task], m.shms[h]);
    assert OwnerSlot(q.tables[m.shms[h].owner.task], q.shms[h]);
    hide Exactly, OwnerSlot, TextData, Turns;
    if UsersAgree(m) && Exactly(q.tables[t], b, q.shms[h].user.mapped) {
      UsersElsewhere(m, q, t, i, r, b);
      assert UserAgrees(m, m.shms[h]);
      assert UserAgrees(q, q.shms[h]);
    }
  }

  lemma OwnerFilled(t: Table, i: nat, r: Resource, s: Shm)
    requires i < SLOTS && Aligned(s.base) && OwnerSlot(t, s) && !s.owner.mapped
    requires BaseOf(r) == s.base && (Writable(r) <==> s.owner.config.rw)
    ensures OwnerSlot(t[i := r], SetMapped(s, Owner, true))
  {
    hide BaseOf, Writable;
    FillSame(t, i, r, s.base);
  }

  lemma OwnerCleared(t: Table, i: nat, s: Shm)
    requires i < SLOTS && Aligned(s.base) && OwnerSlot(t, s) && s.owner.mapped && BaseOf(t[i]) == s.base
    ensures OwnerSlot(t[i := UNMAPPED], SetMapped(s, Owner, false))
  {
    ClearSame(t, i, s.base);
    hide BaseOf, Writable;
  }

  /** The request passes every check and a slot is free. */
  ghost predicate MapsShm(m: Memory, cur: nat, h: nat)
    requires cur < |m.tables|
  {
    && h < |m.shms| && RoleOf(m.shms[h], cur) != Stranger && m.shms[h].mappable
    && PartyOf(m.shms[h], RoleOf(m.shms[h], cur)).config.mappable
    && !PartyOf(m.shms[h], RoleOf(m.shms[h], cur)).mapped
    && FreeFrom(m.tables[cur], 0) < SLOTS
  }

  /** What a successful mapping does, spelled out. */
  lemma MapShmEffect(m: Memory, cur: nat, h: nat) returns (i: nat, r: Resource)
    requires MemInv(m) && cur < |m.tables| && MapsShm(m, cur, h)
    ensures var q, s, role := MapShm(m, cur, h), m.shms[h], RoleOf(m.shms[h], cur);
            && SlotChanged(m, q, cur, i, r) && Flipped(m, q, h, role) && IsFree(m.tables[cur][i])
            && BaseOf(r) == s.base && (Writable(r) <==> PartyOf(s, role).config.rw)
  {
    var s := m.shms[h];
    var rw := PartyOf(s, RoleOf(s, cur)).config.rw;
    i, r := FreeFrom(m.tables[cur], 0), Forge(s.base, s.limit, rw, ATTR_NORMAL_NOCACHE);
    ForgeBase(s.base, s.limit, rw, ATTR_NORMAL_NOCACHE);
    ForgeWritable(s.base, s.limit, rw, ATTR_NORMAL_NOCACHE);
    hide Forge, Writable, BaseOf, IsFree, Exactly, TextData, OwnerSlot;
    SearchAbove(m, cur, s.base);
  }

  lemma MapShmKeeps(m: Memory, cur: nat, h: nat)
    requires MemInv(m) && cur < |m.tables|
    ensures MemInv(MapShm(m, cur, h))
    ensures UsersAgree(m) ==> UsersAgree(MapShm(m, cur, h))
  {
    var q := MapShm(m, cur, h);
    if !MapsShm(m, cur, h) {
      Unchanged(m, q);
    } else {
      var s := m.shms[h];
      var i, r := MapShmEffect(m, cur, h);
      hide MapShm, Writable, BaseOf, IsFree, Exactly, TextData, OwnerSlot;
      if RoleOf(s, cur) == Owner {
        OwnerFilled(m.tables[cur], i, r, s);
        OwnerTurned(m, q, h, i, r);
      } else {
        UserTurned(m, q, h, cur, i, r);
        if UsersAgree(m) {
          assert UserAgrees(m, s);
          FillSame(m.tables[cur], i, r, s.base);
        }
      }
    }
  }

  /** A task the memory is lent to unmaps it, but no slot of that task holds it. */
  ghost predicate Stranded(m: Memory, cur: nat, h: nat)
    requires cur < |m.tables|
  {
    && h < |m.shms| && RoleOf(m.shms[h], cur) == User && m.shms[h].user.mapped
    && !Occurs(m.tables[cur], m.shms[h].base)
  }

  lemma UnmapShmEffect(m: Memory, cur: nat, h: nat) returns (i: nat)
    requires MemInv(m) && cur < |m.tables| && h < |m.shms| && !Stranded(m, cur, h)
    requires RoleOf(m.shms[h], cur) != Stranger && PartyOf(m.shms[h], RoleOf(m.shms[h], cur)).mapped
    ensures var q := UnmapShm(m, cur, h);
            && SlotChanged(m, q, cur, i, UNMAPPED) && Flipped(m, q, h, RoleOf(m.shms[h], cur))
            && BaseOf(m.tables[cur][i]) == m.shms[h].base
  {
    var s := m.shms[h];
    i := FindFrom(m.tables[cur], s.base, 0);
    if RoleOf(s, cur) == Owner {
      assert OwnerSlot(m.tables[cur], s);
    }
    assert Occurs(m.tables[cur], s.base);
    hide BaseOf, IsFree, TextData, OwnerSlot;
    SearchAbove(m, cur, s.base);
  }

  lemma UnmapShmKeeps(m: Memory, cur: nat, h: nat)
    requires MemInv(m) && cur < |m.tables|
    ensures MemInv(UnmapShm(m, cur, h)) <==> !Stranded(m, cur, h)
    ensures UsersAgree(m) ==> !Stranded(m, cur, h) && UsersAgree(UnmapShm(m, cur, h))
  {
    var q := UnmapShm(m, cur, h);
    if UsersAgree(m) && h < |m.shms| {
      assert UserAgrees(m, m.shms[h]);
    }
    if h < |m.shms| && RoleOf(m.shms[h], cur) != Stranger && PartyOf(m.shms[h], RoleOf(m.shms[h], cur)).mapped {
      if !Stranded(m, cur, h) {
        UnmapShmMoves(m, cur, h);
      }
    } else {
      Unchanged(m, q);
    }
  }

  lemma UnmapShmMoves(m: Memory, cur: nat, h: nat)
    requires MemInv(m) && cur < |m.tables| && h < |m.shms| && !Stranded(m, cur, h)
    requires RoleOf(m.shms[h], cur) != Stranger && PartyOf(m.shms[h], RoleOf(m.shms[h], cur)).mapped
    ensures MemInv(UnmapShm(m, cur, h)) && (UsersAgree(m) ==> UsersAgree(UnmapShm(m, cur, h)))
  {
    var q, s := UnmapShm(m, cur, h), m.shms[h];
    var i := UnmapShmEffect(m, cur, h);
    hide UnmapShm, Writable, BaseOf, IsFree, Exactly, TextData, OwnerSlot;
    if RoleOf(s, cur) == Owner {
      OwnerCleared(m.tables[cur], i, s);
      OwnerTurned(m, q, h, i, UNMAPPED);
    } else {
      UserTurned(m, q, h, cur, i, UNMAPPED);
      if UsersAgree(m) {
        assert UserAgrees(m, s);
        ClearSame(m.tables[cur], i, s.base);
      }
    }
  }

  // ---- Credentials ------------------------------------------------------------

  lemma CredsFixed(m: Memory, cur: nat, h: nat, target: nat, config: Config)
    requires Fixed(m) && cur < |m.tables| && Grants(m, cur, h, target)
    ensures Fixed(SetCreds(m, cur, h, target, config))
  {
    hide BaseOf, IsFree, Aligned;
    var q := SetCreds(m, cur, h, target, config);
    assert forall t :: 0 <= t < |q.tables| ==>
             TextData(m.tables[t], m) && (TextData(m.tables[t], m) ==> TextData(q.tables[t], q));
  }

  lemma CredsOwners(m: Memory, cur: nat, h: nat, target: nat, config: Config)
    requires Tasks(m) && OwnersAgree(m) && cur < |m.tables| && Grants(m, cur, h, target)
    ensures OwnersAgree(SetCreds(m, cur, h, target, config))
  {
    var q := SetCreds(m, cur, h, target, config);
    assert OwnerSlot(m.tables[cur], m.shms[h]);
    assert OwnerSlot(q.tables[cur], q.shms[h]);
    hide OwnerSlot;
  }

  lemma SetCredsKeeps(m: Memory, cur: nat, h: nat, target: nat, config: Config)
    requires MemInv(m) && cur < |m.tables|
    ensures MemInv(SetCreds(m, cur, h, target, config))
  {
    var q := SetCreds(m, cur, h, target, config);
    if Grants(m, cur, h, target) {
      CredsFixed(m, cur, h, target, config);
      CredsOwners(m, cur, h, target, config);
      hide Fixed, OwnersAgree, Exactly;
    } else {
      Unchanged(m, q);
    }
  }

  /** New credentials keep the lent mapping in step with its flag exactly when they go to the
      owner, to the present user, or while the present user has not mapped the memory. */
  ghost predicate CredsOk(m: Memory, cur: nat, h: nat, target: nat)
    requires Tasks(m)
  {
    Grants(m, cur, h, target) && target != cur ==> target == m.shms[h].user.task || !m.shms[h].user.mapped
  }

  lemma SetCredsExact(m: Memory, cur: nat, h: nat, target: nat, config: Config)
    requires MemInv(m) && UsersAgree(m) && cur < |m.tables|
    ensures UsersAgree(SetCreds(m, cur, h, target, config)) <==> CredsOk(m, cur, h, target)
  {
    var q := SetCreds(m, cur, h, target, config);
    if !Grants(m, cur, h, target) {
      Unchanged(m, q);
    } else {
      hide Exactly;
      var s := m.shms[h];
      assert UserAgrees(m, s);
      forall g | 0 <= g < |m.shms| && g != h ensures UserAgrees(q, q.shms[g]) {
        assert UserAgrees(m, m.shms[g]);
      }
      if !CredsOk(m, cur, h, target) {
        FlagClash(m.tables[target], s.base);
        assert !UserAgrees(q, q.shms[h]);
      } else {
        assert UserAgrees(q, q.shms[h]);
      }
    }
  }

  lemma FlagClash(t: Table, b: bv32)
    ensures !(Exactly(t, b, true) && Exactly(t, b, false))
  {
  }

  /** Lending a memory to another task while the present user has it mapped leaves the new user
      with a flag and no slot: its first unmap panics. */
  lemma LendingStrands(m: Memory, cur: nat, h: nat, target: nat, config: Config)
    requires MemInv(m) && UsersAgree(m) && cur < |m.tables|
    requires Grants(m, cur, h, target) && !CredsOk(m, cur, h, target)
    ensures var q := SetCreds(m, cur, h, target, config);
            Tasks(q) && target < |q.tables| && Stranded(q, target, h) && UnmapShm(q, target, h).panicked
  {
    var s := m.shms[h];
    assert UserAgrees(m, s);
    assert Exactly(m.tables[target], s.base, false);
  }

  // ---- Whole runs ------------------------------------------------------------

  /** The request keeps the flags of lent memories in step. */
  ghost predicate InStep(m: Memory, cur: nat, r: Request)
    requires Tasks(m)
  {
    r.DoSetCreds? ==> CredsOk(m, cur, r.h, r.target)
  }

  /** Devices and owners always agree with the tables, unless a stranded task unmaps. */
  lemma ServeExact(m: Memory, cur: nat, r: Request)
    requires MemInv(m) && cur < |m.tables|
    ensures MemInv(Serve(m, cur, r)) <==> !(r.DoUnmapShm? && Stranded(m, cur, r.h))
  {
    hide MemInv, MapDevice, UnmapDevice, MapShm, UnmapShm, SetCreds, Stranded;
    Calm(m);
    match r
    case DoMapDevice(d, allowed) => MapDeviceKeeps(m, cur, d, allowed);
    case DoUnmapDevice(d, allowed) => UnmapDeviceKeeps(m, cur, d, allowed);
    case DoMapShm(h) => MapShmKeeps(m, cur, h);
    case DoUnmapShm(h) => UnmapShmKeeps(m, cur, h);
    case DoSetCreds(h, target, config) => SetCredsKeeps(m, cur, h, target, config);
  }

  lemma Calm(m: Memory)
    requires MemInv(m)
    ensures Tasks(m) && !m.panicked
  {
  }

  /** Users agree too exactly as long as every credential request is in step; then nothing panics. */
  lemma ServeInStep(m: Memory, cur: nat, r: Request)
    requires MemInv(m) && UsersAgree(m) && cur < |m.tables|
    ensures MemInv(Serve(m, cur, r))
    ensures UsersAgree(Serve(m, cur, r)) <==> InStep(m, cur, r)
  {
    hide MemInv, UsersAgree, MapDevice, UnmapDevice, MapShm, UnmapShm, SetCreds, Stranded;
    Calm(m);
    ServeExact(m, cur, r);
    match r
    case DoMapDevice(d, allowed) => MapDeviceKeeps(m, cur, d, allowed);
    case DoUnmapDevice(d, allowed) => UnmapDeviceKeeps(m, cur, d, allowed);
    case DoMapShm(h) => MapShmKeeps(m, cur, h);
    case DoUnmapShm(h) => UnmapShmKeeps(m, cur, h);
    case DoSetCreds(h, target, config) => SetCredsExact(m, cur, h, target, config);
  }

  datatype Call = Call(task: nat, request: Request)

  ghost predicate Served(m: Memory, c: Call, q: Memory) {
    Tasks(m) && c.task < |m.tables| && q == Serve(m, c.task, c.request)
  }

  ghost predicate MemRun(trace: seq<Memory>, calls: seq<Call>) {
    |trace| == |calls| + 1 && forall k :: 0 <= k < |calls| ==> Served(trace[k], calls[k], trace[k + 1])
  }

  /** The call is the unmap of a stranded task. */
  ghost predicate Strays(m: Memory, c: Call) {
    c.task < |m.tables| && c.request.DoUnmapShm? && Stranded(m, c.task, c.request.h)
  }

  lemma AgreedSame(m: Memory, q: Memory)
    requires Agreed(m) && q.tables == m.tables && q.devs == m.devs && q.shms == m.shms
    ensures Agreed(q)
  {
    hide Exactly, OwnerSlot;
    assert forall t :: 0 <= t < |q.tables| ==>
             TextData(m.tables[t], m) && (TextData(m.tables[t], m) ==> TextData(q.tables[t], q));
  }

  lemma StrayPanics(m: Memory, c: Call)
    requires Tasks(m) && !m.panicked && Strays(m, c)
    ensures Serve(m, c.task, c.request) == m.(panicked := true)
  {
    hide BaseOf;
  }

  /** Every call keeps the agreement, and panics exactly when it is the unmap of a stranded task. */
  lemma ServeAgrees(m: Memory, c: Call)
    requires Agreed(m) && Tasks(m) && c.task < |m.tables|
    ensures Agreed(Serve(m, c.task, c.request)) && SameTextData(m, Serve(m, c.task, c.request))
    ensures Serve(m, c.task, c.request).panicked <==> m.panicked || Strays(m, c)
  {
    hide Agreed, Stranded, Serve, MapDevice, UnmapDevice, MapShm, UnmapShm, SetCreds;
    if m.panicked {
      PanickedServe(m, c);
    } else {
      TextDataServe(m, c.task, c.request);
      ServeExact(m, c.task, c.request);
      if Strays(m, c) {
        StrayPanics(m, c);
        AgreedSame(m, Serve(m, c.task, c.request));
      }
    }
  }

  lemma PanickedServe(m: Memory, c: Call)
    requires Tasks(m) && c.task < |m.tables| && m.panicked
    ensures Serve(m, c.task, c.request) == m
  {
  }

  /** Over every run of map, unmap and credential gates, device and owner flags agree with the
      tables, and an owner's slot is writable exactly as its credentials say. */
  lemma {:induction false} RunAgrees(trace: seq<Memory>, calls: seq<Call>, k: nat)
    requires MemRun(trace, calls) && Agreed(trace[0]) && k < |trace|
    ensures Agreed(trace[k])
  {
    hide Agreed, Serve, SameTextData, Strays;
    if k > 0 {
      RunAgrees(trace, calls, k - 1);
      assert Served(trace[k - 1], calls[k - 1], trace[k - 1 + 1]);
      ServeAgrees(trace[k - 1], calls[k - 1]);
    }
  }

  /** A run panics exactly when a stranded task unmaps in it. */
  lemma {:induction false} RunPanicsExactly(trace: seq<Memory>, calls: seq<Call>, k: nat)
    requires MemRun(trace, calls) && MemInv(trace[0]) && k < |trace|
    ensures trace[k].panicked <==> exists j :: 0 <= j < k && Strays(trace[j], calls[j])
  {
    hide Agreed, Serve, SameTextData, Strays;
    if k > 0 {
      RunPanicsExactly(trace, calls, k - 1);
      RunAgrees(trace, calls, k - 1);
      assert Served(trace[k - 1], calls[k - 1], trace[k - 1 + 1]);
      ServeAgrees(trace[k - 1], calls[k - 1]);
    }
  }

  /** No task is ever stranded when every credential request is in step. */
  lemma {:induction false} RunInStep(trace: seq<Memory>, calls: seq<Call>, k: nat)
    requires MemRun(trace, calls) && MemInv(trace[0]) && UsersAgree(trace[0]) && k < |trace|
    requires forall n :: 0 <= n < k ==>
               Served(trace[n], calls[n], trace[n + 1]) && InStep(trace[n], calls[n].task, calls[n].request)
    ensures MemInv(trace[k]) && UsersAgree(trace[k])
  {
    hide MemInv, Serve, UsersAgree, InStep;
    if k > 0 {
      RunInStep(trace, calls, k - 1);
      assert Served(trace[k - 1], calls[k - 1], trace[k - 1 + 1]);
      ServeInStep(trace[k - 1], calls[k - 1].task, calls[k - 1].request);
    }
  }

  // ---- Text and data, and undoing ------------------------------------------------------------

  ghost predicate SameTextData(m: Memory, q: Memory) {
    |q.tables| == |m.tables| &&
    forall t :: 0 <= t < |m.tables| ==> q.tables[t][0] == m.tables[t][0] && q.tables[t][1] == m.tables[t][1]
  }

  lemma SlotTextData(m: Memory, t: nat, i: nat, r: Resource)
    requires t < |m.tables| && 2 <= i < SLOTS
    ensures SameTextData(m, SetSlot(m, t, i, r))
  {
  }

  lemma TextDataMapDevice(m: Memory, cur: nat, d: nat, allowed: bool)
    requires Fixed(m) && cur < |m.tables|
    ensures SameTextData(m, MapDevice(m, cur, d, allowed))
  {
    hide Forge, BaseOf, IsFree, TextData, Board, SetSlot;
    if d < |m.devs| && FreeFrom(m.tables[cur], 0) < SLOTS {
      var dev, i := m.devs[d], FreeFrom(m.tables[cur], 0);
      SearchAbove(m, cur, dev.base);
      SlotTextData(m, cur, i, Forge(dev.base, dev.limit, true, ATTR_DEVICE));
    }
  }

  lemma TextDataUnmapDevice(m: Memory, cur: nat, d: nat, allowed: bool)
    requires Fixed(m) && cur < |m.tables|
    ensures SameTextData(m, UnmapDevice(m, cur, d, allowed))
  {
    hide Forge, BaseOf, IsFree, TextData, Board, SetSlot;
    if d < |m.devs| && FindFrom(m.tables[cur], m.devs[d].base, 0) < SLOTS {
      SearchAbove(m, cur, m.devs[d].base);
      SlotTextData(m, cur, FindFrom(m.tables[cur], m.devs[d].base, 0), UNMAPPED);
    }
  }

  lemma TextDataMapShm(m: Memory, cur: nat, h: nat)
    requires Fixed(m) && cur < |m.tables|
    ensures SameTextData(m, MapShm(m, cur, h))
  {
    hide Forge, BaseOf, IsFree, TextData, Board, SetSlot;
    if h < |m.shms| && FreeFrom(m.tables[cur], 0) < SLOTS {
      var s, i := m.shms[h], FreeFrom(m.tables[cur], 0);
      SearchAbove(m, cur, s.base);
      SlotTextData(m, cur, i, Forge(s.base, s.limit, PartyOf(s, RoleOf(s, cur)).config.rw, ATTR_NORMAL_NOCACHE));
    }
  }

  lemma TextDataUnmapShm(m: Memory, cur: nat, h: nat)
    requires Fixed(m) && cur < |m.tables|
    ensures SameTextData(m, UnmapShm(m, cur, h))
  {
    hide Forge, BaseOf, IsFree, TextData, Board, SetSlot;
    if h < |m.shms| && FindFrom(m.tables[cur], m.shms[h].base, 0) < SLOTS {
      SearchAbove(m, cur, m.shms[h].base);
      SlotTextData(m, cur, FindFrom(m.tables[cur], m.shms[h].base, 0), UNMAPPED);
    }
  }

  /** No gate touches the text and data slots of any task. */
  lemma TextDataServe(m: Memory, cur: nat, r: Request)
    requires Agreed(m) && Tasks(m) && cur < |m.tables|
    ensures SameTextData(m, Serve(m, cur, r))
  {
    hide MapDevice, UnmapDevice, MapShm, UnmapShm, Fixed, DevicesAgree, OwnersAgree;
    match r
    case DoMapDevice(d, allowed) => TextDataMapDevice(m, cur, d, allowed);
    case DoUnmapDevice(d, allowed) => TextDataUnmapDevice(m, cur, d, allowed);
    case DoMapShm(h) => TextDataMapShm(m, cur, h);
    case DoUnmapShm(h) => TextDataUnmapShm(m, cur, h);
    case DoSetCreds(h, target, config) =>
  }

  lemma {:induction false} TextDataForever(trace: seq<Memory>, calls: seq<Call>, k: nat)
    requires MemRun(trace, calls) && Agreed(trace[0]) && k < |trace|
    ensures SameTextData(trace[0], trace[k])
  {
    hide Agreed, Serve, Strays;
    if k > 0 {
      TextDataForever(trace, calls, k - 1);
      RunAgrees(trace, calls, k - 1);
      assert Served(trace[k - 1], calls[k - 1], trace[k - 1 + 1]);
      ServeAgrees(trace[k - 1], calls[k - 1]);
    }
  }

  // ---- Boot ------------------------------------------------------------------------------------------------

  /** What the linker and the device tree promise: aligned, distinct addresses and known owners. */
  ghost predicate BoardOk(images: seq<Image>, devices: seq<DeviceMeta>, memories: seq<ShmMeta>) {
    && (forall d :: 0 <= d < |devices| ==>
          devices[d].owner < |images| && Aligned(devices[d].base) && devices[d].capa != 0)
    && (forall h :: 0 <= h < |memories| ==> memories[h].owner < |images| && Aligned(memories[h].base))
    && (forall d, e :: 0 <= d < e < |devices| ==> devices[d].base != devices[e].base)
    && (forall h, g :: 0 <= h < g < |memories| ==> memories[h].base != memories[g].base)
    && (forall d, h :: 0 <= d < |devices| && 0 <= h < |memories| ==> devices[d].base != memories[h].base)
    && (forall t :: 0 <= t < |images| ==> Aligned(images[t].text) && Aligned(images[t].data))
    && (forall t, d :: 0 <= t < |images| && 0 <= d < |devices| ==> devices[d].base !in {images[t].text, images[t].data})
    && (forall t, h :: 0 <= t < |images| && 0 <= h < |memories| ==>
          memories[h].base !in {images[t].text, images[t].data})
  }

  lemma BootTableHolds(im: Image)
    requires Aligned(im.text) && Aligned(im.data)
    ensures var t := BootTable(im);
            && BaseOf(t[0]) == im.text && BaseOf(t[1]) == im.data && !IsFree(t[0]) && !IsFree(t[1])
            && (forall i :: 2 <= i < SLOTS ==> IsFree(t[i]) && BaseOf(t[i]) == 0)
  {
    TextForged(im.text, im.textLimit);
    ForgeBase(im.data, im.dataLimit, true, ATTR_NORMAL_NOCACHE);
    ForgeUsed(im.data, im.dataLimit, true, ATTR_NORMAL_NOCACHE);
    FreeBase(UNMAPPED);
    hide Forge, ForgeText, BaseOf, IsFree, Aligned;
  }

  /** No base other than text and data is in a fresh table. */
  lemma BootTableExact(im: Image, b: bv32)
    requires Aligned(im.text) && Aligned(im.data) && b !in {im.text, im.data} && b != 0
    ensures Exactly(BootTable(im), b, false)
  {
    BootTableHolds(im);
    hide BootTable, BaseOf, IsFree, Aligned;
  }

  /** Boot establishes the agreement, for owners and users alike. */
  lemma MemoryBoots(images: seq<Image>, devices: seq<DeviceMeta>, memories: seq<ShmMeta>)
    requires BoardOk(images, devices, memories)
    ensures MemInv(BootMemory(images, devices, memories)) && UsersAgree(BootMemory(images, devices, memories))
  {
    var m := BootMemory(images, devices, memories);
    hide BootTable, Exactly, BaseOf, IsFree;
    forall t | 0 <= t < |m.tables| ensures TextData(m.tables[t], m) {
      BootTableHolds(images[t]);
    }
    forall d, t | 0 <= d < |m.devs| && 0 <= t < |m.tables| ensures Exactly(m.tables[t], m.devs[d].base, false) {
      BootTableExact(images[t], devices[d].base);
    }
    forall h, t | 0 <= h < |m.shms| && 0 <= t < |m.tables| ensures Exactly(m.tables[t], m.shms[h].base, false) {
      BootTableExact(images[t], memories[h].base);
    }
    forall h | 0 <= h < |m.shms| ensures OwnerSlot(m.tables[m.shms[h].owner.task], m.shms[h]) {
      NoSlot(m.tables[m.shms[h].owner.task], m.shms[h]);
    }
  }

  lemma NoSlot(t: Table, s: Shm)
    requires Exactly(t, s.base, false) && !s.owner.mapped
    ensures OwnerSlot(t, s)
  {
  }

  /** From boot on, over every run: agreement, text and data untouched, a panic only when a
      stranded task unmaps. */
  lemma BootRunAgrees(images: seq<Image>, devices: seq<DeviceMeta>, memories: seq<ShmMeta>, trace: seq<Memory>,
                      calls: seq<Call>, k: nat)
    requires BoardOk(images, devices, memories) && MemRun(trace, calls) && k < |trace|
    requires trace[0] == BootMemory(images, devices, memories)
    ensures Agreed(trace[k]) && SameTextData(trace[0], trace[k])
    ensures trace[k].panicked <==> exists j :: 0 <= j < k && Strays(trace[j], calls[j])
  {
    hide Agreed, MemRun, SameTextData, Strays, BoardOk, BootMemory;
    MemoryBoots(images, devices, memories);
    RunAgrees(trace, calls, k);
    TextDataForever(trace, calls, k);
    RunPanicsExactly(trace, calls, k);
  }

  /** The slot that was filled is the one that is found again. */
  lemma FoundAgain(t: Table, i: nat, r: Resource, b: bv32)
    requires i < SLOTS && b != 0 && Exactly(t, b, false) && BaseOf(r) == b && IsFree(t[i])
    ensures FindFrom(t[i := r], b, 0) == i && t[i := r][i := UNMAPPED] == t
  {
    FillSame(t, i, r, b);
    assert BaseOf(t[i := r][i]) == b;
    assert t[i] == UNMAPPED;
  }

  /** Mapping a device and unmapping it restores everything. */
  lemma DeviceUndone(m: Memory, cur: nat, d: nat)
    requires MemInv(m) && cur < |m.tables|
    requires d < |m.devs| && !m.devs[d].mapped && m.devs[d].owner == cur && FreeFrom(m.tables[cur], 0) < SLOTS
    ensures var q := MapDevice(m, cur, d, true);
            Tasks(q) && UnmapDevice(q, cur, d, true) == m.(result := Okay)
  {
    var dev, i := m.devs[d], FreeFrom(m.tables[cur], 0);
    var r := Forge(dev.base, dev.limit, true, ATTR_DEVICE);
    ForgeBase(dev.base, dev.limit, true, ATTR_DEVICE);
    assert Exactly(m.tables[cur], dev.base, false);
    FoundAgain(m.tables[cur], i, r, dev.base);
    hide Forge, BaseOf, IsFree, Exactly;
    var q := MapDevice(m, cur, d, true);
    assert UnmapDevice(q, cur, d, true).tables == m.tables;
    assert UnmapDevice(q, cur, d, true).devs == m.devs;
  }

  /** So does mapping and unmapping a shared memory, for its owner and for the task it is lent to. */
  lemma ShmUndone(m: Memory, cur: nat, h: nat)
    requires MemInv(m) && UsersAgree(m) && cur < |m.tables| && MapsShm(m, cur, h)
    ensures var q := MapShm(m, cur, h);
            Tasks(q) && UnmapShm(q, cur, h) == m.(result := Okay)
  {
    var s := m.shms[h];
    assert UserAgrees(m, s) && OwnerSlot(m.tables[s.owner.task], s);
    assert Exactly(m.tables[cur], s.base, false);
    var rw := PartyOf(s, RoleOf(s, cur)).config.rw;
    var i, r := FreeFrom(m.tables[cur], 0), Forge(s.base, s.limit, rw, ATTR_NORMAL_NOCACHE);
    ForgeBase(s.base, s.limit, rw, ATTR_NORMAL_NOCACHE);
    FoundAgain(m.tables[cur], i, r, s.base);
    hide Forge, BaseOf, IsFree, Exactly, OwnerSlot, UserAgrees;
    var q := MapShm(m, cur, h);
    assert UnmapShm(q, cur, h).tables == m.tables;
    assert UnmapShm(q, cur, h).shms == m.shms;
  }

  // ---- A stranded user -----------------------------------------------------------------------------------

  lemma LendAndMap(m: Memory, o: nat, h: nat, u: nat, all: Config) returns (p: Memory, q: Memory)
    requires MemInv(m) && UsersAgree(m) && all.mappable && o < |m.tables| && u < |m.tables| && o != u
    requires h < |m.shms| && m.shms[h].mappable && m.shms[h].owner.task == o && FreeFrom(m.tables[u], 0) < SLOTS
    requires !m.shms[h].owner.mapped && !m.shms[h].user.mapped
    ensures Served(m, Call(o, DoSetCreds(h, u, all)), p) && Served(p, Call(u, DoMapShm(h)), q)
    ensures MemInv(q) && UsersAgree(q) && |q.tables| == |m.tables| && |q.shms| == |m.shms|
    ensures q.shms[h] == m.shms[h].(user := Party(u, all, true))
  {
    hide MemInv, UsersAgree;
    Calm(m);
    p := SetCreds(m, o, h, u, all);
    ServeInStep(m, o, DoSetCreds(h, u, all));
    q := MapShm(p, u, h);
    Calm(p);
    ServeInStep(p, u, DoMapShm(h));
  }

  lemma UserOccurs(m: Memory, h: nat)
    requires UsersAgree(m) && h < |m.shms| && m.shms[h].user.mapped && m.shms[h].user.task < |m.tables|
    ensures Occurs(m.tables[m.shms[h].user.task], m.shms[h].base)
  {
    assert UserAgrees(m, m.shms[h]);
    assert m.shms[h].user.task != m.shms[h].owner.task;
    assert Exactly(m.tables[m.shms[h].user.task], m.shms[h].base, true);
  }

  lemma LendAgain(q: Memory, o: nat, h: nat, v: nat, all: Config) returns (r: Memory, z: Memory)
    requires MemInv(q) && UsersAgree(q) && o < |q.tables| && v < |q.tables|
    requires h < |q.shms| && Tasks(q) && Grants(q, o, h, v) && !CredsOk(q, o, h, v)
    ensures Served(q, Call(o, DoSetCreds(h, v, all)), r) && Served(r, Call(v, DoUnmapShm(h)), z)
    ensures r.tables == q.tables && Stranded(r, v, h) && z == r.(panicked := true)
  {
    r := SetCreds(q, o, h, v, all);
    LendingStrands(q, o, h, v, all);
    hide Agreed, UsersAgree, Stranded;
    StrayPanics(r, Call(v, DoUnmapShm(h)));
    z := Serve(r, v, DoUnmapShm(h));
  }

  lemma BootRoom(im: Image)
    requires Aligned(im.text) && Aligned(im.data)
    ensures FreeFrom(BootTable(im), 0) < SLOTS
  {
    BootTableHolds(im);
    hide BootTable, BaseOf, IsFree, Aligned;
  }

  lemma BootLends(images: seq<Image>, devices: seq<DeviceMeta>, memories: seq<ShmMeta>, h: nat, u: nat)
    returns (m: Memory)
    requires BoardOk(images, devices, memories) && h < |memories| && u < |images|
    ensures m == BootMemory(images, devices, memories) && MemInv(m) && UsersAgree(m)
    ensures |m.tables| == |images| && |m.shms| == |memories| && memories[h].owner < |images|
    ensures m.shms[h] == BootShm(memories[h]) && FreeFrom(m.tables[u], 0) < SLOTS
  {
    m := BootMemory(images, devices, memories);
    MemoryBoots(images, devices, memories);
    hide BootTable, MemInv, UsersAgree;
    BootRoom(images[u]);
  }

  /** Lend a mappable memory to one task, which maps it, then to another: the second task's unmap
      panics, and the first keeps the memory in its table. */
  lemma StrandedReached(images: seq<Image>, devices: seq<DeviceMeta>, memories: seq<ShmMeta>, h: nat, u: nat, v: nat)
    returns (trace: seq<Memory>)
    requires BoardOk(images, devices, memories) && h < |memories| && memories[h].mappable
    requires u < |images| && v < |images| && u != v && memories[h].owner !in {u, v}
    ensures var o, all := memories[h].owner, Config(true, true, true);
            MemRun(trace, [Call(o, DoSetCreds(h, u, all)), Call(u, DoMapShm(h)), Call(o, DoSetCreds(h, v, all)),
                           Call(v, DoUnmapShm(h))])
    ensures trace[0] == BootMemory(images, devices, memories)
    ensures v < |trace[3].tables| && Stranded(trace[3], v, h) && trace[4].panicked
    ensures u < |trace[4].tables| && Occurs(trace[4].tables[u], memories[h].base)
  {
    hide BoardOk, MemInv, UsersAgree, Occurs, Stranded, Serve, BootMemory, Tasks;
    var o, all := memories[h].owner, Config(true, true, true);
    var m := BootLends(images, devices, memories, h, u);
    var p, q := LendAndMap(m, o, h, u, all);
    UserOccurs(q, h);
    Calm(q);
    var r, z := LendAgain(q, o, h, v, all);
    trace := [m, p, q, r, z];
  }
}
