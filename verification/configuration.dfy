/** The world configuration records the servers exchange: `MajorBoss`, `Rates` and
    `WorldConfig`, each with a `write` that appends its fields to a packet and a
    `read` that assigns them back, in place, from a packet reader. */
module Configuration {
  import opened Packets

  // ---------------------------------------------------------------------------
  // Values of the records

  datatype MajorBossValue = MajorBossValue(attempts: int16, channels: seq<int8>)

  datatype RatesValue = RatesValue(mobExpRate: int32, questExpRate: int32, mobMesoRate: int32, dropRate: int32)

  datatype WorldConfigValue = WorldConfigValue(
    ribbon: int8,
    maxMultiLevel: uint8,
    defaultStorageSlots: uint8,
    maxStats: int16,
    defaultChars: int32,
    maxChars: int32,
    maxPlayerLoad: int32,
    fameTime: int32,
    fameResetTime: int32,
    maxChannels: uint64,
    eventMsg: string,
    scrollingHeader: string,
    name: string,
    rates: RatesValue,
    pianus: MajorBossValue,
    pap: MajorBossValue,
    zakum: MajorBossValue,
    horntail: MajorBossValue,
    pinkbean: MajorBossValue)

  const MajorBossWidth: nat := 2
  const RatesWidth: nat := 4
  const WorldConfigWidth: nat := 27

  // ---------------------------------------------------------------------------
  // What `write` appends

  /** The fields `MajorBoss::write` appends. */
  function MajorBossFields(b: MajorBossValue): (p: Packet)
    ensures |p| == MajorBossWidth
  {
    [I16(b.attempts), I8Vector(b.channels)]
  }

  /** The fields `Rates::write` appends. */
  function RatesFields(r: RatesValue): (p: Packet)
    ensures |p| == RatesWidth
  {
    [I32(r.mobExpRate), I32(r.questExpRate), I32(r.mobMesoRate), I32(r.dropRate)]
  }

  /** `WorldConfig::write`, appends 1 to 7. */
  function LimitFields(c: WorldConfigValue): Packet {
    [ I8(c.ribbon), U8(c.maxMultiLevel), U8(c.defaultStorageSlots), I16(c.maxStats),
      I32(c.defaultChars), I32(c.maxChars), I32(c.maxPlayerLoad) ]
  }

  /** `WorldConfig::write`, appends 8 to 13: `maxChannels` is a `size_t` written as an
      `int32_t`, and it goes out before `fameTime` although it is declared after it. */
  function TimerAndTextFields(c: WorldConfigValue): Packet {
    [ I32(ToInt32(c.maxChannels)), I32(c.fameTime), I32(c.fameResetTime),
      Str(c.eventMsg), Str(c.scrollingHeader), Str(c.name) ]
  }

  /** `WorldConfig::write`, the nested records spliced in by `addClass`. */
  function NestedFields(c: WorldConfigValue): Packet {
    RatesFields(c.rates)
    + MajorBossFields(c.pianus) + MajorBossFields(c.pap) + MajorBossFields(c.zakum)
    + MajorBossFields(c.horntail) + MajorBossFields(c.pinkbean)
  }

  /** The fields `WorldConfig::write` appends. */
  function WorldConfigFields(c: WorldConfigValue): (p: Packet)
    ensures |p| == WorldConfigWidth
  {
    LimitFields(c) + TimerAndTextFields(c) + NestedFields(c)
  }

  // ---------------------------------------------------------------------------
  // What `read` assigns. A `None` result is a malformed packet at that point.

  /** `MajorBoss::read` at `pos`: it assigns every field. */
  function DecodeMajorBoss(buf: Packet, pos: nat): Option<MajorBossValue> {
    var attempts := I16At(buf, pos);
    var channels := I8VectorAt(buf, pos + 1);
    if attempts.Some? && channels.Some? then Some(MajorBossValue(attempts.value, channels.value)) else None
  }

  /** `Rates::read` at `pos`: it assigns every field. */
  function DecodeRates(buf: Packet, pos: nat): Option<RatesValue> {
    var mobExp := I32At(buf, pos);
    var questExp := I32At(buf, pos + 1);
    var mobMeso := I32At(buf, pos + 2);
    var drop := I32At(buf, pos + 3);
    if mobExp.Some? && questExp.Some? && mobMeso.Some? && drop.Some? then
      Some(RatesValue(mobExp.value, questExp.value, mobMeso.value, drop.value))
    else None
  }

  /** Reads 1 to 7 of `WorldConfig::read`, assigned over the fields of `c`. */
  function ReadLimitsInto(c: WorldConfigValue, buf: Packet, pos: nat): Option<WorldConfigValue> {
    var ribbon := I8At(buf, pos);
    var maxMultiLevel := U8At(buf, pos + 1);
    var storageSlots := U8At(buf, pos + 2);
    var maxStats := I16At(buf, pos + 3);
    var defaultChars := I32At(buf, pos + 4);
    var maxChars := I32At(buf, pos + 5);
    var maxPlayerLoad := I32At(buf, pos + 6);
    if && ribbon.Some? && maxMultiLevel.Some? && storageSlots.Some? && maxStats.Some?
       && defaultChars.Some? && maxChars.Some? && maxPlayerLoad.Some?
    then
      Some(c.(ribbon := ribbon.value, maxMultiLevel := maxMultiLevel.value,
              defaultStorageSlots := storageSlots.value, maxStats := maxStats.value,
              defaultChars := defaultChars.value, maxChars := maxChars.value,
              maxPlayerLoad := maxPlayerLoad.value))
    else None
  }

  /** Reads 8 to 13 of `WorldConfig::read`; the `int32_t` read into `maxChannels` is widened to `size_t`. */
  function ReadTimersAndTextsInto(c: WorldConfigValue, buf: Packet, pos: nat): Option<WorldConfigValue> {
    var maxChannels := I32At(buf, pos);
    var fameTime := I32At(buf, pos + 1);
    var fameResetTime := I32At(buf, pos + 2);
    var eventMsg := StrAt(buf, pos + 3);
    var scrollingHeader := StrAt(buf, pos + 4);
    var name := StrAt(buf, pos + 5);
    if && maxChannels.Some? && fameTime.Some? && fameResetTime.Some?
       && eventMsg.Some? && scrollingHeader.Some? && name.Some?
    then
      Some(c.(maxChannels := Int32ToSize(maxChannels.value), fameTime := fameTime.value,
              fameResetTime := fameResetTime.value, eventMsg := eventMsg.value,
              scrollingHeader := scrollingHeader.value, name := name.value))
    else None
  }

  /** Reads 14 to 19 of `WorldConfig::read`: the nested records, each by `getClass`. */
  function ReadNestedInto(c: WorldConfigValue, buf: Packet, pos: nat): Option<WorldConfigValue> {
    var rates := DecodeRates(buf, pos);
    var pianus := DecodeMajorBoss(buf, pos + 4);
    var pap := DecodeMajorBoss(buf, pos + 6);
    var zakum := DecodeMajorBoss(buf, pos + 8);
    var horntail := DecodeMajorBoss(buf, pos + 10);
    var pinkbean := DecodeMajorBoss(buf, pos + 12);
    if rates.Some? && pianus.Some? && pap.Some? && zakum.Some? && horntail.Some? && pinkbean.Some? then
      Some(c.(rates := rates.value, pianus := pianus.value, pap := pap.value,
              zakum := zakum.value, horntail := horntail.value, pinkbean := pinkbean.value))
    else None
  }

  /** `WorldConfig::read` at `pos`, assigning over the current value `c`. */
  function ReadWorldConfigInto(c: WorldConfigValue, buf: Packet, pos: nat): Option<WorldConfigValue> {
    var limits := ReadLimitsInto(c, buf, pos);
    if limits.None? then None else
    var timers := ReadTimersAndTextsInto(limits.value, buf, pos + 7);
    if timers.None? then None else
    ReadNestedInto(timers.value, buf, pos + 13)
  }

  // ---------------------------------------------------------------------------
  // Round trips

  lemma MajorBossRoundTrip(prefix: Packet, b: MajorBossValue, suffix: Packet)
    ensures DecodeMajorBoss(prefix + MajorBossFields(b) + suffix, |prefix|) == Some(b)
  {
    var buf := prefix + MajorBossFields(b) + suffix;
    assert buf[|prefix|] == I16(b.attempts);
    assert buf[|prefix| + 1] == I8Vector(b.channels);
  }

  /** Conversely, a successful `MajorBoss::read` consumed exactly the fields `write` would emit. */
  lemma MajorBossDecodeInverse(buf: Packet, pos: nat, b: MajorBossValue)
    requires DecodeMajorBoss(buf, pos) == Some(b)
    ensures pos + MajorBossWidth <= |buf| && buf[pos..pos + MajorBossWidth] == MajorBossFields(b)
  {
  }

  lemma RatesRoundTrip(prefix: Packet, r: RatesValue, suffix: Packet)
    ensures DecodeRates(prefix + RatesFields(r) + suffix, |prefix|) == Some(r)
  {
    var buf := prefix + RatesFields(r) + suffix;
    var k := |prefix|;
    assert buf[k] == I32(r.mobExpRate) && buf[k + 1] == I32(r.questExpRate);
    assert buf[k + 2] == I32(r.mobMesoRate) && buf[k + 3] == I32(r.dropRate);
  }

  /** Conversely, a successful `Rates::read` consumed exactly the fields `write` would emit,
      in the order mobExp, questExp, mobMeso, drop. */
  lemma RatesDecodeInverse(buf: Packet, pos: nat, r: RatesValue)
    requires DecodeRates(buf, pos) == Some(r)
    ensures pos + RatesWidth <= |buf| && buf[pos..pos + RatesWidth] == RatesFields(r)
  {
  }

  lemma LimitsRoundTrip(d: WorldConfigValue, prefix: Packet, c: WorldConfigValue, suffix: Packet)
    ensures ReadLimitsInto(d, prefix + LimitFields(c) + suffix, |prefix|)
         == Some(d.(ribbon := c.ribbon, maxMultiLevel := c.maxMultiLevel,
                    defaultStorageSlots := c.defaultStorageSlots, maxStats := c.maxStats,
                    defaultChars := c.defaultChars, maxChars := c.maxChars,
                    maxPlayerLoad := c.maxPlayerLoad))
  {
    var buf := prefix + LimitFields(c) + suffix;
    var k := |prefix|;
    assert forall i :: 0 <= i < 7 ==> buf[k + i] == LimitFields(c)[i];
  }

  lemma TimersAndTextsRoundTrip(d: WorldConfigValue, prefix: Packet, c: WorldConfigValue, suffix: Packet)
    ensures ReadTimersAndTextsInto(d, prefix + TimerAndTextFields(c) + suffix, |prefix|)
         == Some(d.(maxChannels := Int32ToSize(ToInt32(c.maxChannels)), fameTime := c.fameTime,
                    fameResetTime := c.fameResetTime, eventMsg := c.eventMsg,
                    scrollingHeader := c.scrollingHeader, name := c.name))
  {
    var buf := prefix + TimerAndTextFields(c) + suffix;
    var k := |prefix|;
    assert forall i :: 0 <= i < 6 ==> buf[k + i] == TimerAndTextFields(c)[i];
  }

  lemma NestedRoundTrip(d: WorldConfigValue, prefix: Packet, c: WorldConfigValue, suffix: Packet)
    ensures ReadNestedInto(d, prefix + NestedFields(c) + suffix, |prefix|)
         == Some(d.(rates := c.rates, pianus := c.pianus, pap := c.pap,
                    zakum := c.zakum, horntail := c.horntail, pinkbean := c.pinkbean))
  {
    var buf := prefix + NestedFields(c) + suffix;
    var k := |prefix|;
    RatesRoundTrip(prefix, c.rates, NestedFields(c)[4..] + suffix);
    assert buf == prefix + RatesFields(c.rates) + (NestedFields(c)[4..] + suffix);
    BossAt(buf, k + 4, c.pianus);
    BossAt(buf, k + 6, c.pap);
    BossAt(buf, k + 8, c.zakum);
    BossAt(buf, k + 10, c.horntail);
    BossAt(buf, k + 12, c.pinkbean);
  }

  /** `MajorBoss::read` finds back a boss whose two fields sit at `pos`. */
  lemma BossAt(buf: Packet, pos: nat, b: MajorBossValue)
    requires pos + 1 < |buf| && buf[pos] == I16(b.attempts) && buf[pos + 1] == I8Vector(b.channels)
    ensures DecodeMajorBoss(buf, pos) == Some(b)
  {
  }

  /** Reading a written configuration, over any previous value, gives back every field,
      except that `maxChannels` goes through `int32_t` on the way. */
  lemma WorldConfigReadAfterWrite(d: WorldConfigValue, prefix: Packet, c: WorldConfigValue, suffix: Packet)
    ensures ReadWorldConfigInto(d, prefix + WorldConfigFields(c) + suffix, |prefix|)
         == Some(c.(maxChannels := Int32ToSize(ToInt32(c.maxChannels))))
  {
    var buf := prefix + WorldConfigFields(c) + suffix;
    var k := |prefix|;
    var p1, p2 := prefix + LimitFields(c), prefix + LimitFields(c) + TimerAndTextFields(c);
    assert buf == prefix + LimitFields(c) + (TimerAndTextFields(c) + NestedFields(c) + suffix);
    LimitsRoundTrip(d, prefix, c, TimerAndTextFields(c) + NestedFields(c) + suffix);
    var d1 := ReadLimitsInto(d, buf, k).value;
    assert buf == p1 + TimerAndTextFields(c) + (NestedFields(c) + suffix);
    TimersAndTextsRoundTrip(d1, p1, c, NestedFields(c) + suffix);
    var d2 := ReadTimersAndTextsInto(d1, buf, k + 7).value;
    assert buf == p2 + NestedFields(c) + suffix;
    NestedRoundTrip(d2, p2, c, suffix);
  }

  /** The configuration survives the trip exactly when `maxChannels` survives the
      `size_t` -> `int32_t` -> `size_t` conversions: below 2^31, or within 2^31 of 2^64. */
  lemma WorldConfigRoundTrip(d: WorldConfigValue, prefix: Packet, c: WorldConfigValue, suffix: Packet)
    ensures ReadWorldConfigInto(d, prefix + WorldConfigFields(c) + suffix, |prefix|) == Some(c)
        <==> (c.maxChannels < 0x8000_0000 || c.maxChannels >= 0x1_0000_0000_0000_0000 - 0x8000_0000)
  {
    WorldConfigReadAfterWrite(d, prefix, c, suffix);
    MaxChannelsSurvives(c.maxChannels);
  }

  lemma MaxChannelsSurvives(m: uint64)
    ensures Int32ToSize(ToInt32(m)) == m
        <==> (m < 0x8000_0000 || m >= 0x1_0000_0000_0000_0000 - 0x8000_0000)
  {
    var w := ToInt32(m);
    if m < 0x8000_0000 {
    } else if m >= 0x1_0000_0000_0000_0000 - 0x8000_0000 {
      assert m % 0x1_0000_0000 == m - 0xFFFF_FFFF_0000_0000;
    } else {
      if w >= 0 {
        assert Int32ToSize(w) < 0x8000_0000;
      } else {
        assert Int32ToSize(w) >= 0x1_0000_0000_0000_0000 - 0x8000_0000;
      }
    }
  }

  /** The smallest channel count that does not come back: 2^31 is read back as 2^64 - 2^31. */
  lemma MaxChannelsCounterexample(d: WorldConfigValue, c: WorldConfigValue)
    requires c.maxChannels == 0x8000_0000
    ensures ReadWorldConfigInto(d, WorldConfigFields(c), 0).Some?
    ensures ReadWorldConfigInto(d, WorldConfigFields(c), 0).value.maxChannels
         == 0x1_0000_0000_0000_0000 - 0x8000_0000
  {
    WorldConfigReadAfterWrite(d, [], c, []);
    assert [] + WorldConfigFields(c) + [] == WorldConfigFields(c);
  }

  /** `WorldConfig::read` assigns every field: when it succeeds, what was there before does not matter. */
  lemma ReadOverwritesEverything(c1: WorldConfigValue, c2: WorldConfigValue, buf: Packet, pos: nat)
    ensures ReadWorldConfigInto(c1, buf, pos).Some? == ReadWorldConfigInto(c2, buf, pos).Some?
    ensures ReadWorldConfigInto(c1, buf, pos).Some? ==>
              ReadWorldConfigInto(c1, buf, pos) == ReadWorldConfigInto(c2, buf, pos)
  {
  }

  // ---------------------------------------------------------------------------
  // Rates::Types

  const MobExpRateFlag: int32 := 0x01
  const QuestExpRateFlag: int32 := 0x02
  const MobMesoRateFlag: int32 := 0x04
  const DropRateFlag: int32 := 0x08

  predicate SingleBit(x: int32) {
    x > 0 && (x as bv32) & ((x - 1) as bv32) == 0
  }

  /** The four rate selectors are single-bit masks, pairwise disjoint, so they can be or-ed together. */
  lemma RateTypesAreDistinctBits()
    ensures SingleBit(MobExpRateFlag) && SingleBit(QuestExpRateFlag)
    ensures SingleBit(MobMesoRateFlag) && SingleBit(DropRateFlag)
    ensures var flags := [MobExpRateFlag, QuestExpRateFlag, MobMesoRateFlag, DropRateFlag];
      forall i, j :: 0 <= i < j < 4 ==> (flags[i] as bv32) & (flags[j] as bv32) == 0
  {
  }

  // ---------------------------------------------------------------------------
  // The records as objects

  class MajorBoss {
    var attempts: int16
    var channels: seq<int8>

    constructor ()
      ensures attempts == 0 && channels == []
    {
      attempts := 0;
      channels := [];
    }

    function Value(): MajorBossValue
      reads this
    {
      MajorBossValue(attempts, channels)
    }

    method Write(p: PacketBuilder)
      modifies p
      ensures p.fields == old(p.fields) + MajorBossFields(Value())
    {
      p.Add(I16(attempts));
      p.Add(I8Vector(channels));
    }

    /** Assigns the fields in place; `false` when the packet is malformed, after which
        the fields read so far keep their new values. */
    method Read(rd: PacketReader) returns (ok: bool)
      modifies this, rd
      ensures ok <==> DecodeMajorBoss(rd.buf, old(rd.pos)).Some?
      ensures ok ==> (Value() == DecodeMajorBoss(rd.buf, old(rd.pos)).value
                      && rd.pos == old(rd.pos) + MajorBossWidth)
    {
      var a := rd.GetI16();
      if a.None? { return false; }
      attempts := a.value;
      var c := rd.GetI8Vector();
      if c.None? { return false; }
      channels := c.value;
      ok := true;
    }
  }

  class Rates {
    var mobExpRate: int32
    var questExpRate: int32
    var mobMesoRate: int32
    var dropRate: int32

    constructor ()
      ensures mobExpRate == 1 && questExpRate == 1 && mobMesoRate == 1 && dropRate == 1
    {
      mobExpRate, questExpRate, mobMesoRate, dropRate := 1, 1, 1, 1;
    }

    function Value(): RatesValue
      reads this
    {
      RatesValue(mobExpRate, questExpRate, mobMesoRate, dropRate)
    }

    method Write(p: PacketBuilder)
      modifies p
      ensures p.fields == old(p.fields) + RatesFields(Value())
    {
      p.Add(I32(mobExpRate));
      p.Add(I32(questExpRate));
      p.Add(I32(mobMesoRate));
      p.Add(I32(dropRate));
    }

    method Read(rd: PacketReader) returns (ok: bool)
      modifies this, rd
      ensures ok <==> DecodeRates(rd.buf, old(rd.pos)).Some?
      ensures ok ==> (Value() == DecodeRates(rd.buf, old(rd.pos)).value
                      && rd.pos == old(rd.pos) + RatesWidth)
    {
      var v := rd.GetI32();
      if v.None? { return false; }
      mobExpRate := v.value;
      v := rd.GetI32();
      if v.None? { return false; }
      questExpRate := v.value;
      v := rd.GetI32();
      if v.None? { return false; }
      mobMesoRate := v.value;
      v := rd.GetI32();
      if v.None? { return false; }
      dropRate := v.value;
      ok := true;
    }
  }

  /** `packet.getClass<Rates>()`: a default-constructed record filled by its own `read`. */
  method GetRates(rd: PacketReader) returns (ok: bool, r: Rates)
    modifies rd
    ensures fresh(r)
    ensures ok <==> DecodeRates(rd.buf, old(rd.pos)).Some?
    ensures ok ==> (r.Value() == DecodeRates(rd.buf, old(rd.pos)).value && rd.pos == old(rd.pos) + RatesWidth)
  {
    r := new Rates();
    ok := r.Read(rd);
  }

  /** `packet.getClass<MajorBoss>()`. */
  method GetMajorBoss(rd: PacketReader) returns (ok: bool, b: MajorBoss)
    modifies rd
    ensures fresh(b)
    ensures ok <==> DecodeMajorBoss(rd.buf, old(rd.pos)).Some?
    ensures ok ==> (b.Value() == DecodeMajorBoss(rd.buf, old(rd.pos)).value && rd.pos == old(rd.pos) + MajorBossWidth)
  {
    b := new MajorBoss();
    ok := b.Read(rd);
  }

  class WorldConfig {
    var ribbon: int8
    var maxMultiLevel: uint8
    var defaultStorageSlots: uint8
    var maxStats: int16
    var defaultChars: int32
    var maxChars: int32
    var maxPlayerLoad: int32
    var fameTime: int32
    var fameResetTime: int32
    var maxChannels: uint64
    var eventMsg: string
    var scrollingHeader: string
    var name: string
    var rates: Rates
    var pianus: MajorBoss
    var pap: MajorBoss
    var zakum: MajorBoss
    var horntail: MajorBoss
    var pinkbean: MajorBoss

    constructor ()
      ensures ribbon == 0 && maxMultiLevel == 1 && defaultStorageSlots == 4
      ensures maxStats == 999 && defaultChars == 3 && maxChars == 6 && maxPlayerLoad == 100
      ensures fameTime == 30 * 60 * 60 && fameResetTime == 30 * 60 * 60 && maxChannels == 20
      ensures eventMsg == "" && scrollingHeader == "" && name == ""
      ensures rates.Value() == RatesValue(1, 1, 1, 1)
      ensures pianus.Value() == pap.Value() == zakum.Value() == MajorBossValue(0, [])
      ensures horntail.Value() == pinkbean.Value() == MajorBossValue(0, [])
    {
      ribbon, maxMultiLevel, defaultStorageSlots := 0, 1, 4;
      maxStats, defaultChars, maxChars, maxPlayerLoad := 999, 3, 6, 100;
      fameTime, fameResetTime, maxChannels := 30 * 60 * 60, 30 * 60 * 60, 20;
      eventMsg, scrollingHeader, name := "", "", "";
      rates := new Rates();
      pianus := new MajorBoss();
      pap := new MajorBoss();
      zakum := new MajorBoss();
      horntail := new MajorBoss();
      pinkbean := new MajorBoss();
    }

    function Value(): WorldConfigValue
      reads this, rates, pianus, pap, zakum, horntail, pinkbean
    {
      WorldConfigValue(
        ribbon, maxMultiLevel, defaultStorageSlots, maxStats,
        defaultChars, maxChars, maxPlayerLoad, fameTime, fameResetTime, maxChannels,
        eventMsg, scrollingHeader, name,
        rates.Value(), pianus.Value(), pap.Value(), zakum.Value(), horntail.Value(), pinkbean.Value())
    }

    method Write(p: PacketBuilder)
      modifies p
      ensures p.fields == old(p.fields) + WorldConfigFields(Value())
    {
      WriteLimits(p);
      WriteTimersAndTexts(p);
      WriteNested(p);
    }

    /** Appends 1 to 7 of `WorldConfig::write`. */
    method WriteLimits(p: PacketBuilder)
      modifies p
      ensures p.fields == old(p.fields) + LimitFields(Value())
    {
      p.Add(I8(ribbon));
      p.Add(U8(maxMultiLevel));
      p.Add(U8(defaultStorageSlots));
      p.Add(I16(maxStats));
      p.Add(I32(defaultChars));
      p.Add(I32(maxChars));
      p.Add(I32(maxPlayerLoad));
    }

    /** Appends 8 to 13 of `WorldConfig::write`. */
    method WriteTimersAndTexts(p: PacketBuilder)
      modifies p
      ensures p.fields == old(p.fields) + TimerAndTextFields(Value())
    {
      p.Add(I32(ToInt32(maxChannels)));
      p.Add(I32(fameTime));
      p.Add(I32(fameResetTime));
      p.Add(Str(eventMsg));
      p.Add(Str(scrollingHeader));
      p.Add(Str(name));
    }

    /** Appends 14 to 19 of `WorldConfig::write`: each nested record writes itself. */
    method WriteNested(p: PacketBuilder)
      modifies p
      ensures p.fields == old(p.fields) + RatesFields(rates.Value())
                + MajorBossFields(pianus.Value()) + MajorBossFields(pap.Value()) + MajorBossFields(zakum.Value())
                + MajorBossFields(horntail.Value()) + MajorBossFields(pinkbean.Value())
    {
      rates.Write(p);
      pianus.Write(p);
      pap.Write(p);
      zakum.Write(p);
      horntail.Write(p);
      pinkbean.Write(p);
    }

    method Read(rd: PacketReader) returns (ok: bool)
      modifies this, rd
      ensures ok <==> ReadWorldConfigInto(old(Value()), rd.buf, old(rd.pos)).Some?
      ensures ok ==> (Value() == ReadWorldConfigInto(old(Value()), rd.buf, old(rd.pos)).value
                      && rd.pos == old(rd.pos) + WorldConfigWidth)
    {
      ghost var v0, p0 := Value(), rd.pos;
      ok := ReadLimits(rd);
      if !ok { return; }
      ghost var v1 := Value();
      assert v1 == ReadLimitsInto(v0, rd.buf, p0).value;
      ok := ReadTimersAndTexts(rd);
      if !ok { return; }
      ghost var v2 := Value();
      assert v2 == ReadTimersAndTextsInto(v1, rd.buf, p0 + 7).value;
      ok := ReadNested(rd);
      if !ok { return; }
      assert Value() == ReadNestedInto(v2, rd.buf, p0 + 13).value;
    }

    /** Reads 1 to 7 of `WorldConfig::read`. */
    method ReadLimits(rd: PacketReader) returns (ok: bool)
      modifies rd, this`ribbon, this`maxMultiLevel, this`defaultStorageSlots, this`maxStats
      modifies this`defaultChars, this`maxChars, this`maxPlayerLoad
      ensures var buf, p := rd.buf, old(rd.pos);
        ok <==> (&& I8At(buf, p).Some? && U8At(buf, p + 1).Some? && U8At(buf, p + 2).Some?
                 && I16At(buf, p + 3).Some? && I32At(buf, p + 4).Some? && I32At(buf, p + 5).Some?
                 && I32At(buf, p + 6).Some?)
      ensures var buf, p := rd.buf, old(rd.pos);
        ok ==> (&& rd.pos == p + 7
                && ribbon == I8At(buf, p).value && maxMultiLevel == U8At(buf, p + 1).value
                && defaultStorageSlots == U8At(buf, p + 2).value && maxStats == I16At(buf, p + 3).value
                && defaultChars == I32At(buf, p + 4).value && maxChars == I32At(buf, p + 5).value
                && maxPlayerLoad == I32At(buf, p + 6).value)
    {
      var a := rd.GetI8();
      if a.None? { return false; }
      ribbon := a.value;
      var b := rd.GetU8();
      if b.None? { return false; }
      maxMultiLevel := b.value;
      b := rd.GetU8();
      if b.None? { return false; }
      defaultStorageSlots := b.value;
      var s := rd.GetI16();
      if s.None? { return false; }
      maxStats := s.value;
      var i := rd.GetI32();
      if i.None? { return false; }
      defaultChars := i.value;
      i := rd.GetI32();
      if i.None? { return false; }
      maxChars := i.value;
      i := rd.GetI32();
      if i.None? { return false; }
      maxPlayerLoad := i.value;
      ok := true;
    }

    /** Reads 8 to 13 of `WorldConfig::read`. */
    method ReadTimersAndTexts(rd: PacketReader) returns (ok: bool)
      modifies rd, this`maxChannels, this`fameTime, this`fameResetTime
      modifies this`eventMsg, this`scrollingHeader, this`name
      ensures var buf, p := rd.buf, old(rd.pos);
        ok <==> (&& I32At(buf, p).Some? && I32At(buf, p + 1).Some? && I32At(buf, p + 2).Some?
                 && StrAt(buf, p + 3).Some? && StrAt(buf, p + 4).Some? && StrAt(buf, p + 5).Some?)
      ensures var buf, p := rd.buf, old(rd.pos);
        ok ==> (&& rd.pos == p + 6
                && maxChannels == Int32ToSize(I32At(buf, p).value)
                && fameTime == I32At(buf, p + 1).value && fameResetTime == I32At(buf, p + 2).value
                && eventMsg == StrAt(buf, p + 3).value && scrollingHeader == StrAt(buf, p + 4).value
                && name == StrAt(buf, p + 5).value)
    {
      var i := rd.GetI32();
      if i.None? { return false; }
      maxChannels := Int32ToSize(i.value);
      i := rd.GetI32();
      if i.None? { return false; }
      fameTime := i.value;
      i := rd.GetI32();
      if i.None? { return false; }
      fameResetTime := i.value;
      var t := rd.GetString();
      if t.None? { return false; }
      eventMsg := t.value;
      t := rd.GetString();
      if t.None? { return false; }
      scrollingHeader := t.value;
      t := rd.GetString();
      if t.None? { return false; }
      name := t.value;
      ok := true;
    }

    /** Reads 14 to 19 of `WorldConfig::read`: each nested record is read into a fresh
        object that then replaces the old one, as `getClass<T>()` returns a new value. */
    method ReadNested(rd: PacketReader) returns (ok: bool)
      modifies rd, this`rates, this`pianus, this`pap, this`zakum, this`horntail, this`pinkbean
      ensures var buf, p := rd.buf, old(rd.pos);
        ok <==> (&& DecodeRates(buf, p).Some? && DecodeMajorBoss(buf, p + 4).Some?
                 && DecodeMajorBoss(buf, p + 6).Some? && DecodeMajorBoss(buf, p + 8).Some?
                 && DecodeMajorBoss(buf, p + 10).Some? && DecodeMajorBoss(buf, p + 12).Some?)
      ensures var buf, p := rd.buf, old(rd.pos);
        ok ==> (&& rd.pos == p + 14
                && rates.Value() == DecodeRates(buf, p).value
                && pianus.Value() == DecodeMajorBoss(buf, p + 4).value
                && pap.Value() == DecodeMajorBoss(buf, p + 6).value
                && zakum.Value() == DecodeMajorBoss(buf, p + 8).value
                && horntail.Value() == DecodeMajorBoss(buf, p + 10).value
                && pinkbean.Value() == DecodeMajorBoss(buf, p + 12).value)
    {
      var r;
      ok, r := GetRates(rd);
      if !ok { return; }
      rates := r;
      var b;
      ok, b := GetMajorBoss(rd);
      if !ok { return; }
      pianus := b;
      ok, b := GetMajorBoss(rd);
      if !ok { return; }
      pap := b;
      ok, b := GetMajorBoss(rd);
      if !ok { return; }
      zakum := b;
      ok, b := GetMajorBoss(rd);
      if !ok { return; }
      horntail := b;
      ok, b := GetMajorBoss(rd);
      if !ok { return; }
      pinkbean := b;
    }
  }
}
