/** `frontend/client/client.js`: turning the slots of a profile into a snapshot of flows. */
module Profiles {
  import opened Words
  import opened Wrappers
  import opened FlowIds
  import opened FlowTops
  import opened Headers
  import FS = FlowString
  import Splits
  import Configs

  datatype Stat = Stat(packets: int, bits: int, flow: FS.Flow)

  /** A 64-bit word as Node (signed) or a browser (unsigned) reads it. */
  function Read(word: u64, signed: bool): int {
    if signed then Signed(word) else word
  }

  /** The flow expression a tuple stands for; port zero means any port. */
  function FlowOf(t: FlowTuple): FS.Flow {
    FS.Flow(t.ip, t.protocol, t.port, if t.port > 0 then t.port else 65535)
  }

  predicate Active(slot: FlowCtr, signed: bool) {
    Read(slot.packets, signed) > 0
  }

  function StatOf(slot: FlowCtr, signed: bool): Stat {
    Stat(Read(slot.packets, signed), Read(slot.bits, signed), FlowOf(Unpack(Read(slot.id, signed))))
  }

  function KeyOf(slot: FlowCtr, signed: bool): string {
    FS.ToString(StatOf(slot, signed).flow)
  }

  type Snapshot = map<string, Stat>

  /** Later slots overwrite earlier ones that have the same key. */
  function SnapshotOf(slots: seq<FlowCtr>, signed: bool): Snapshot {
    if |slots| == 0 then map[]
    else
      var front, slot := SnapshotOf(slots[..|slots| - 1], signed), slots[|slots| - 1];
      if Active(slot, signed) then front[KeyOf(slot, signed) := StatOf(slot, signed)] else front
  }

  /** `_parse`. */
  method Parse(slots: array<FlowCtr>, signed: bool) returns (flows: Snapshot)
    requires slots.Length == FLOWTOP_NSLOTS
    ensures flows == SnapshotOf(slots[..], signed)
  {
    hide FS.ToString, Unpack, Signed;
    flows := map[];
    var i := 0;
    while i < FLOWTOP_NSLOTS
      invariant i <= slots.Length && flows == SnapshotOf(slots[..i], signed)
    {
      assert slots[..i + 1][..i] == slots[..i];
      var packets, bits, id := Read(slots[i].packets, signed), Read(slots[i].bits, signed), Read(slots[i].id, signed);
      if packets > 0 {
        var flow := FlowOf(Unpack(id));
        flows := flows[FS.ToString(flow) := Stat(packets, bits, flow)];
      }
      i := i + 1;
    }
    assert slots[..i] == slots[..];
  }

  /** That flow, as Split is given it. */
  function SplitFlow(t: FlowTuple, dir: Configs.Dir): Configs.Flow {
    var f := FlowOf(t);
    Configs.Flow(Splits.DEFAULT, dir, f.ip, f.protocol, f.portMin, f.portMax)
  }

  /** It covers exactly the tuples of its address, protocol and port, zero meaning any. */
  lemma FlowCovers(t: FlowTuple, u: FlowTuple, dir: Configs.Dir)
    ensures Splits.Covers(SplitFlow(t, dir), u) <==>
              && (t.ip == 0 || t.ip == u.ip)
              && (t.protocol == 0 || t.protocol == u.protocol)
              && (t.port == 0 || t.port == u.port || (t.protocol != 6 && t.protocol != 17))
  {
  }

  /** So what the profile shows for a slot, entered as a flow, matches every IPv4 packet without
      options that was counted there under it. */
  lemma ProfiledMatches(data: Data, dir: Configs.Dir)
    requires EtherType(data) == TYPE_IPV4 && Ihl(data) == 5
    ensures Splits.FlowMatch(data, SplitFlow(TupleOf(data, dir), dir))
  {
    var t := TupleOf(data, dir);
    Splits.MatchIsCover(data, SplitFlow(t, dir));
    FlowCovers(t, t, dir);
    hide Splits.FlowMatch, Splits.Covers, SplitFlow, TupleOf;
    assert SplitFlow(t, dir).dir == dir by { DirOf(t, dir); }
  }

  lemma DirOf(t: FlowTuple, dir: Configs.Dir)
    ensures SplitFlow(t, dir).dir == dir
  {
  }

  /** The address counted prints as the octets at bytes 26 to 29 of the frame, or 30 to 33. */
  lemma AddressPrints(data: Data, dir: Configs.Dir)
    ensures var i := if dir.Src? then 26 else 30;
            FS.Ntop(Address(data, dir))
            == FS.Dec(data[i]) + ['.'] + (FS.Dec(data[i + 1]) + ['.']
               + (FS.Dec(data[i + 2]) + ['.'] + FS.Dec(data[i + 3])))
  {
    var i := if dir.Src? then 26 else 30;
    var ip := Address(data, dir);
    FS.OctetsIs(ip);
    OctetsApart(data[i], data[i + 1], data[i + 2], data[i + 3],
                FS.Octet(ip, 1), FS.Octet(ip, 0x100), FS.Octet(ip, 0x1_0000), FS.Octet(ip, 0x100_0000));
    hide FS.Dec, FS.Octet;
  }

  lemma OctetsApart(a: nat, b: nat, c: nat, d: nat, w: nat, x: nat, y: nat, z: nat)
    requires a < 0x100 && b < 0x100 && c < 0x100 && w < 0x100 && x < 0x100 && y < 0x100
    requires a + 0x100 * b + 0x1_0000 * c + 0x100_0000 * d == w + 0x100 * x + 0x1_0000 * y + 0x100_0000 * z
    ensures a == w && b == x && c == y && d == z
  {
    assert a == w;
    assert b == x;
  }

  /** Different tuples have different keys, and a key parses back to its flow. */
  lemma KeysAreInjective(t: FlowTuple, u: FlowTuple)
    ensures FS.Parse(FS.ToString(FlowOf(t))) == Some(FlowOf(t))
    ensures FS.ToString(FlowOf(t)) == FS.ToString(FlowOf(u)) ==> t == u
  {
    FS.PrintParses(FlowOf(t));
    FS.PrintParses(FlowOf(u));
    hide FS.ToString, FS.Parse;
  }

  /** The key of a counting slot comes from the tuple that was counted, however it is read. */
  lemma KeyIs(slots: seq<FlowCtr>, i: nat, signed: bool) returns (t: FlowTuple)
    requires Hashed(slots) && i < |slots| && Active(slots[i], signed)
    ensures FlowId(t) == slots[i].id && KeyOf(slots[i], signed) == FS.ToString(FlowOf(t))
    ensures StatOf(slots[i], signed).flow == FlowOf(t)
  {
    assert InPlace(slots[i].id, i);
    t :| FlowId(t) == slots[i].id;
    UnpackFlowId(t);
    hide FlowId, FS.ToString, Unpack, FlowOf;
  }

  /** No two counting slots of a well-placed profile have one key: equal keys mean equal tuples,
      equal IDs, and so one slot. */
  lemma KeysAreNotShared(slots: seq<FlowCtr>, signed: bool, i: nat, j: nat)
    requires Hashed(slots) && i < |slots| && j < |slots|
    requires Active(slots[i], signed) && Active(slots[j], signed)
    requires KeyOf(slots[i], signed) == KeyOf(slots[j], signed)
    ensures i == j
  {
    assert InPlace(slots[i].id, i) && InPlace(slots[j].id, j);
    hide FlowId, FlowSlot, FS.ToString, FS.Parse, KeyOf, StatOf, FlowOf, Hashed, Active;
    var t := KeyIs(slots, i, signed);
    var u := KeyIs(slots, j, signed);
    KeysAreInjective(t, u);
  }

  function ActiveCount(slots: seq<FlowCtr>, signed: bool): nat {
    if |slots| == 0 then 0
    else ActiveCount(slots[..|slots| - 1], signed) + if Active(slots[|slots| - 1], signed) then 1 else 0
  }

  /** Some slots are counted under pairwise different keys. */
  ghost predicate Separate(slots: seq<FlowCtr>, signed: bool) {
    forall i, j :: 0 <= i < j < |slots| && Active(slots[i], signed) && Active(slots[j], signed) ==>
      KeyOf(slots[i], signed) != KeyOf(slots[j], signed)
  }

  /** A snapshot has every counting slot's counts under that slot's key, and nothing else. */
  ghost predicate Lists(s: Snapshot, slots: seq<FlowCtr>, signed: bool) {
    && (forall i :: 0 <= i < |slots| && Active(slots[i], signed) ==>
          KeyOf(slots[i], signed) in s && s[KeyOf(slots[i], signed)] == StatOf(slots[i], signed))
    && (forall key :: key in s ==> HasKey(slots, signed, key))
  }

  ghost predicate HasKey(slots: seq<FlowCtr>, signed: bool, key: string) {
    exists i :: 0 <= i < |slots| && Active(slots[i], signed) && KeyOf(slots[i], signed) == key
  }

  lemma {:induction false} SeparateSnapshot(slots: seq<FlowCtr>, signed: bool)
    requires Separate(slots, signed)
    ensures Lists(SnapshotOf(slots, signed), slots, signed)
    ensures |SnapshotOf(slots, signed)| == ActiveCount(slots, signed)
  {
    if |slots| > 0 {
      var front, slot := slots[..|slots| - 1], slots[|slots| - 1];
      hide Active, KeyOf, StatOf, Lists, Separate;
      SeparateFront(slots, signed);
      SeparateSnapshot(front, signed);
      ListsNext(SnapshotOf(front, signed), slots, signed);
      OneMoreKey(SnapshotOf(front, signed), KeyOf(slot, signed), StatOf(slot, signed));
    }
  }

  lemma OneMoreKey(s: Snapshot, key: string, stat: Stat)
    ensures key !in s ==> |s[key := stat]| == |s| + 1
  {
    assert s[key := stat].Keys == s.Keys + {key};
    assert |s.Keys| == |s|;
  }

  lemma SeparateFront(slots: seq<FlowCtr>, signed: bool)
    requires Separate(slots, signed) && |slots| > 0
    ensures Separate(slots[..|slots| - 1], signed)
  {
    hide Active, KeyOf;
  }

  lemma HasKeyNext(slots: seq<FlowCtr>, signed: bool, key: string)
    requires |slots| > 0 && HasKey(slots[..|slots| - 1], signed, key)
    ensures HasKey(slots, signed, key)
    ensures Separate(slots, signed) && Active(slots[|slots| - 1], signed) ==> key != KeyOf(slots[|slots| - 1], signed)
  {
    hide Active, KeyOf;
    var front := slots[..|slots| - 1];
    var i :| 0 <= i < |front| && Active(front[i], signed) && KeyOf(front[i], signed) == key;
    assert slots[i] == front[i];
  }

  lemma ListsNext(s: Snapshot, slots: seq<FlowCtr>, signed: bool)
    requires |slots| > 0 && Separate(slots, signed) && Lists(s, slots[..|slots| - 1], signed)
    ensures var slot := slots[|slots| - 1];
            var key := KeyOf(slot, signed);
            && (Active(slot, signed) ==> key !in s && Lists(s[key := StatOf(slot, signed)], slots, signed))
            && (!Active(slot, signed) ==> Lists(s, slots, signed))
  {
    hide Active, KeyOf, StatOf, HasKey, Separate;
    var slot := slots[|slots| - 1];
    var key := KeyOf(slot, signed);
    forall k | k in s ensures HasKey(slots, signed, k) && (Active(slot, signed) ==> k != key) {
      HasKeyNext(slots, signed, k);
    }
    if Active(slot, signed) {
      LastHasKey(slots, signed);
      assert key !in s;
      var r := s[key := StatOf(slot, signed)];
      forall i | 0 <= i < |slots| && Active(slots[i], signed)
        ensures KeyOf(slots[i], signed) in r && r[KeyOf(slots[i], signed)] == StatOf(slots[i], signed)
      {
        assert i < |slots| - 1 ==> slots[..|slots| - 1][i] == slots[i];
      }
    } else {
      forall i | 0 <= i < |slots| && Active(slots[i], signed)
        ensures KeyOf(slots[i], signed) in s && s[KeyOf(slots[i], signed)] == StatOf(slots[i], signed)
      {
        assert slots[..|slots| - 1][i] == slots[i];
      }
    }
  }

  lemma LastHasKey(slots: seq<FlowCtr>, signed: bool)
    requires |slots| > 0 && Active(slots[|slots| - 1], signed)
    ensures HasKey(slots, signed, KeyOf(slots[|slots| - 1], signed))
  {
  }

  /** No flow of a profile is lost: a snapshot has one entry for each counting slot, under a
      key of its own, with that slot's counts. */
  lemma SnapshotIsFaithful(slots: seq<FlowCtr>, signed: bool)
    requires Hashed(slots)
    ensures Lists(SnapshotOf(slots, signed), slots, signed)
    ensures |SnapshotOf(slots, signed)| == ActiveCount(slots, signed)
  {
    hide Active, KeyOf, StatOf, SnapshotOf, Hashed, Lists;
    forall i, j | 0 <= i < j < |slots| && Active(slots[i], signed) && Active(slots[j], signed)
      ensures KeyOf(slots[i], signed) != KeyOf(slots[j], signed)
    {
      if KeyOf(slots[i], signed) == KeyOf(slots[j], signed) {
        KeysAreNotShared(slots, signed, i, j);
      }
    }
    SeparateSnapshot(slots, signed);
  }

  /** No counter of a slot in use has passed 2^63. */
  predicate CountersLow(slots: seq<FlowCtr>) {
    forall i :: 0 <= i < |slots| && slots[i].packets > 0 ==> Low(slots[i])
  }

  predicate Low(slot: FlowCtr) {
    slot.packets < 0x8000_0000_0000_0000 && slot.bits < 0x8000_0000_0000_0000
  }

  /** Signed and unsigned readers get the same snapshot exactly when no counter of a slot in use
      has passed 2^63. */
  lemma ReadersAgree(slots: seq<FlowCtr>)
    requires Hashed(slots)
    ensures SnapshotOf(slots, true) == SnapshotOf(slots, false) <==> CountersLow(slots)
  {
    hide SnapshotOf, Hashed, StatOf, Low, Lists, KeyOf;
    if CountersLow(slots) {
      LowAgree(slots);
    }
    if SnapshotOf(slots, true) == SnapshotOf(slots, false) {
      SnapshotIsFaithful(slots, true);
      SnapshotIsFaithful(slots, false);
      forall i | 0 <= i < |slots| && slots[i].packets > 0 ensures Low(slots[i]) {
        UnsignedListed(SnapshotOf(slots, false), slots, i);
        SignedIsLow(SnapshotOf(slots, true), slots, KeyOf(slots[i], false));
        LowStat(slots[i]);
      }
    }
  }

  lemma LowAgree(slots: seq<FlowCtr>)
    requires Hashed(slots) && CountersLow(slots)
    ensures SnapshotOf(slots, true) == SnapshotOf(slots, false)
  {
    forall i | 0 <= i < |slots| && Active(slots[i], true)
      ensures StatOf(slots[i], true) == StatOf(slots[i], false)
    {
      SameStat(slots, i);
    }
    hide Hashed, StatOf, InPlace;
    SameSnapshot(slots);
  }

  lemma UnsignedListed(s: Snapshot, slots: seq<FlowCtr>, i: nat)
    requires Lists(s, slots, false) && i < |slots| && slots[i].packets > 0
    ensures KeyOf(slots[i], false) in s && s[KeyOf(slots[i], false)] == StatOf(slots[i], false)
  {
    assert Active(slots[i], false);
    hide KeyOf, StatOf, HasKey;
  }

  /** What a signed reader lists is below 2^63. */
  lemma SignedIsLow(s: Snapshot, slots: seq<FlowCtr>, key: string)
    requires Lists(s, slots, true) && key in s
    ensures s[key].packets < 0x8000_0000_0000_0000 && s[key].bits < 0x8000_0000_0000_0000
  {
    hide KeyOf, Active, FlowOf, Unpack;
    assert HasKey(slots, true, key);
    var i :| 0 <= i < |slots| && Active(slots[i], true) && KeyOf(slots[i], true) == key;
    assert s[key] == StatOf(slots[i], true);
  }

  lemma LowStat(slot: FlowCtr)
    ensures var stat := StatOf(slot, false);
            stat.packets < 0x8000_0000_0000_0000 && stat.bits < 0x8000_0000_0000_0000 <==> Low(slot)
  {
    hide FlowOf, Unpack;
  }

  lemma SameStat(slots: seq<FlowCtr>, i: nat)
    requires Hashed(slots) && i < |slots| && Active(slots[i], true)
    requires slots[i].packets < 0x8000_0000_0000_0000 && slots[i].bits < 0x8000_0000_0000_0000
    ensures StatOf(slots[i], true) == StatOf(slots[i], false)
  {
    assert InPlace(slots[i].id, i);
    var t :| FlowId(t) == slots[i].id;
    UnpackFlowId(t);
    hide FlowId, Unpack, FlowOf;
  }

  lemma {:induction false} SameSnapshot(slots: seq<FlowCtr>)
    requires forall i :: 0 <= i < |slots| ==> slots[i].packets < 0x8000_0000_0000_0000
    requires forall i :: 0 <= i < |slots| && Active(slots[i], true) ==>
                           StatOf(slots[i], true) == StatOf(slots[i], false)
    ensures SnapshotOf(slots, true) == SnapshotOf(slots, false)
  {
    hide StatOf;
    if |slots| > 0 {
      SameSnapshot(slots[..|slots| - 1]);
    }
  }
}
