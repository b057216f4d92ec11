/** The pet packets (`PetsPacket`): chat, summoning, animations, the pet's item
    record, level-up effects and the summoned-pets stat update. Every value written
    with `addByte` goes through the conversion to `unsigned char`. */
module PetsPacket {
  import opened Packets

  /** The pet attributes the packets carry. */
  datatype Pet = Pet(
    index: int,
    summoned: bool,
    kind: int32,
    name: string,
    id: int32,
    pos: Pos,
    inventorySlot: int,
    level: int,
    closeness: int16,
    fullness: int)

  /** The player the packets concern: its id and the map it stands on. */
  datatype Owner = Owner(id: int32, mapId: int)

  /** An outbound packet and where it goes. */
  datatype Outbound = Outbound(packet: Packet, to: Recipient)

  /** The literal bytes `updatePet` writes after the pet's id, and for the expiry date. */
  const UpdatePetMagic: seq<uint8> := [0x00, 0x80, 0x05, 0xBB, 0x46, 0xE6, 0x17, 0x02]
  const UpdatePetExpiry: seq<uint8> := [0xB8, 0xD5, 0x60, 0x00, 0xCE, 0xC8]

  /** The width of the fixed name field in the pet's item record. */
  const PetNameWidth: nat := 13

  const SummonSlots: nat := 3

  // ---------------------------------------------------------------------------
  // showChat

  function ShowChatFields(owner: Owner, pet: Pet, message: string, act: int8): (p: Packet)
    ensures |p| == 7 && p[0] == Header(SendPetShowChat) && p[1] == I32(owner.id)
    ensures p[5] == Str(message) && p[6] == U8(0)
    ensures p[4].U8? && (p[4].u8 - act) % 0x100 == 0
  {
    [Header(SendPetShowChat), I32(owner.id), Byte(pet.index), U8(0), Byte(act), Str(message), U8(0)]
  }

  /** `showChat` goes to everyone on the map but the owner. */
  method ShowChat(owner: Owner, pet: Pet, message: string, act: int8) returns (out: Outbound)
    ensures out == Outbound(ShowChatFields(owner, pet, message, act), ToMapExcept(owner.mapId, owner.id))
  {
    var packet := new PacketBuilder();
    packet.Add(Header(SendPetShowChat));
    packet.Add(I32(owner.id));
    packet.Add(Byte(pet.index));
    packet.Add(U8(0));
    packet.Add(Byte(act));
    packet.Add(Str(message));
    packet.Add(U8(0));
    out := Outbound(packet.fields, ToMapExcept(owner.mapId, owner.id));
  }

  // ---------------------------------------------------------------------------
  // petSummoned

  /** The block `petSummoned` appends for a summoned pet. */
  function SummonedDetails(pet: Pet): Packet {
    [I32(pet.kind), Str(pet.name), I32(pet.id), I32(0), I16(pet.pos.x), I16(pet.pos.y), U8(0), I32(0)]
  }

  function PetSummonedFields(owner: Owner, pet: Pet, kick: bool): (p: Packet)
    ensures |p| >= 5
    ensures p[..5] == [Header(SendPetSummoned), I32(owner.id), Byte(pet.index), FlagByte(pet.summoned), FlagByte(kick)]
    ensures p[5..] == if pet.summoned then SummonedDetails(pet) else []
  {
    [Header(SendPetSummoned), I32(owner.id), Byte(pet.index), FlagByte(pet.summoned), FlagByte(kick)]
    + (if pet.summoned then SummonedDetails(pet) else [])
  }

  /** What a client reads from a `petSummoned` packet: whether the pet is out and, if so,
      its name and position. */
  function ParsePetSummoned(p: Packet): Option<(bool, Option<(string, Pos)>)> {
    if |p| < 5 || !p[3].U8? || p[3].u8 > 1 then None
    else if p[3].u8 == 0 then (if |p| == 5 then Some((false, None)) else None)
    else if |p| == 13 && p[6].Str? && p[9].I16? && p[10].I16? then Some((true, Some((p[6].s, Pos(p[9].i16, p[10].i16)))))
    else None
  }

  /** The detail block is there exactly when the pet is summoned, and carries its name and position. */
  lemma PetSummonedDetails(owner: Owner, pet: Pet, kick: bool)
    ensures ParsePetSummoned(PetSummonedFields(owner, pet, kick))
         == Some((pet.summoned, if pet.summoned then Some((pet.name, pet.pos)) else None))
  {
  }

  method AddSummonedDetails(packet: PacketBuilder, pet: Pet)
    modifies packet
    ensures packet.fields == old(packet.fields) + SummonedDetails(pet)
  {
    packet.Add(I32(pet.kind));
    packet.Add(Str(pet.name));
    packet.Add(I32(pet.id));
    packet.Add(I32(0));
    packet.Add(I16(pet.pos.x));
    packet.Add(I16(pet.pos.y));
    packet.Add(U8(0));
    packet.Add(I32(0));
  }

  method PetSummoned(owner: Owner, pet: Pet, kick: bool) returns (out: Outbound)
    ensures out == Outbound(PetSummonedFields(owner, pet, kick), ToMap(owner.mapId))
  {
    var packet := new PacketBuilder();
    packet.Add(Header(SendPetSummoned));
    packet.Add(I32(owner.id));
    packet.Add(Byte(pet.index));
    packet.Add(FlagByte(pet.summoned));
    packet.Add(FlagByte(kick));
    if pet.summoned {
      AddSummonedDetails(packet, pet);
    }
    out := Outbound(packet.fields, ToMap(owner.mapId));
  }

  // ---------------------------------------------------------------------------
  // showAnimation

  function ShowAnimationFields(owner: Owner, pet: Pet, animation: int8, success: bool): (p: Packet)
    ensures |p| == 6 && p[..3] == [Header(SendPetAnimation), I32(owner.id), Byte(pet.index)]
    ensures p[3] == U8(1) <==> animation == 1 && success
    ensures p[3] == U8(0) <==> !(animation == 1 && success)
    ensures p[4] == Byte(animation)
    ensures animation != 1 ==> p[5] == I16(if success then 1 else 0)
    ensures animation == 1 ==> p[5] == U8(0)
  {
    [Header(SendPetAnimation), I32(owner.id), Byte(pet.index),
     U8(if animation == 1 && success then 1 else 0), Byte(animation),
     if animation != 1 then I16(if success then 1 else 0) else U8(0)]
  }

  /** `showAnimation` goes to the owner only. */
  method ShowAnimation(owner: Owner, pet: Pet, animation: int8, success: bool) returns (out: Outbound)
    ensures out == Outbound(ShowAnimationFields(owner, pet, animation, success), ToPlayer(owner.id))
  {
    var packet := new PacketBuilder();
    packet.Add(Header(SendPetAnimation));
    packet.Add(I32(owner.id));
    packet.Add(Byte(pet.index));
    if animation == 1 && success {
      packet.Add(U8(1));
    } else {
      packet.Add(U8(0));
    }
    packet.Add(Byte(animation));
    if animation != 1 {
      if success {
        packet.Add(I16(1));
      } else {
        packet.Add(I16(0));
      }
    } else {
      packet.Add(U8(0));
    }
    out := Outbound(packet.fields, ToPlayer(owner.id));
  }

  // ---------------------------------------------------------------------------
  // updatePet

  /** `updatePet`, lines 1 to 10 after the header: the inventory slot the record moves to. */
  function ItemSlotFields(pet: Pet): Packet {
    [U8(0), U8(2), U8(3), U8(5), Byte(pet.inventorySlot), I16(0), U8(5), Byte(pet.inventorySlot), U8(0), U8(3)]
  }

  /** `updatePet`, the item itself: type, id, the literal bytes and the name in its fixed field. */
  function PetItemFields(pet: Pet): Packet {
    [I32(pet.kind), U8(1), I32(pet.id), I32(0), Raw(UpdatePetMagic), FixedStr(pet.name, PetNameWidth)]
  }

  /** `updatePet`, the pet's condition: level, closeness, fullness, expiry and the alive flag. */
  function PetConditionFields(pet: Pet): Packet {
    [Byte(pet.level), I16(pet.closeness), Byte(pet.fullness), U8(0), Raw(UpdatePetExpiry), U8(1), I32(0)]
  }

  /** The pet's item record, `updatePet`. */
  function UpdatePetFields(pet: Pet): (p: Packet)
    ensures |p| == 24 && p[0] == Header(SendMoveItem)
    ensures p[15] == Raw(UpdatePetMagic) && p[21] == Raw(UpdatePetExpiry)
    ensures p[16] == FixedStr(pet.name, PetNameWidth)
    ensures p[13] == I32(pet.id) && p[11] == I32(pet.kind)
  {
    [Header(SendMoveItem)] + ItemSlotFields(pet) + PetItemFields(pet) + PetConditionFields(pet)
  }

  method UpdatePet(owner: Owner, pet: Pet) returns (out: Outbound)
    ensures out == Outbound(UpdatePetFields(pet), ToPlayer(owner.id))
  {
    var packet := new PacketBuilder();
    packet.Add(Header(SendMoveItem));
    AddItemSlot(packet, pet);
    AddPetItem(packet, pet);
    AddPetCondition(packet, pet);
    out := Outbound(packet.fields, ToPlayer(owner.id));
  }

  method AddItemSlot(packet: PacketBuilder, pet: Pet)
    modifies packet
    ensures packet.fields == old(packet.fields) + ItemSlotFields(pet)
  {
    packet.Add(U8(0));
    packet.Add(U8(2));
    packet.Add(U8(3));
    packet.Add(U8(5));
    packet.Add(Byte(pet.inventorySlot));
    packet.Add(I16(0));
    packet.Add(U8(5));
    packet.Add(Byte(pet.inventorySlot));
    packet.Add(U8(0));
    packet.Add(U8(3));
  }

  method AddPetItem(packet: PacketBuilder, pet: Pet)
    modifies packet
    ensures packet.fields == old(packet.fields) + PetItemFields(pet)
  {
    packet.Add(I32(pet.kind));
    packet.Add(U8(1));
    packet.Add(I32(pet.id));
    packet.Add(I32(0));
    packet.Add(Raw(UpdatePetMagic));
    packet.Add(FixedStr(pet.name, PetNameWidth));
  }

  method AddPetCondition(packet: PacketBuilder, pet: Pet)
    modifies packet
    ensures packet.fields == old(packet.fields) + PetConditionFields(pet)
  {
    packet.Add(Byte(pet.level));
    packet.Add(I16(pet.closeness));
    packet.Add(Byte(pet.fullness));
    packet.Add(U8(0));
    packet.Add(Raw(UpdatePetExpiry));
    packet.Add(U8(1));
    packet.Add(I32(0));
  }

  // ---------------------------------------------------------------------------
  // levelUp

  /** `levelUp`: the item-gain effect for the owner, then the skill effect for the map;
      both end with the pet's index. */
  function LevelUpPackets(owner: Owner, pet: Pet): (r: seq<Outbound>)
    ensures |r| == 2 && r[0].to == ToPlayer(owner.id) && r[1].to == ToMap(owner.mapId)
    ensures |r[0].packet| == |r[1].packet| == 4
    ensures r[0].packet[0] == Header(SendGainItem) && r[1].packet[0] == Header(SendShowSkill)
    ensures forall i :: 0 <= i < 2 ==> r[i].packet[|r[i].packet| - 1] == Byte(pet.index)
  {
    [ Outbound([Header(SendGainItem), U8(4), U8(0), Byte(pet.index)], ToPlayer(owner.id)),
      Outbound([Header(SendShowSkill), I32(owner.id), I16(4), Byte(pet.index)], ToMap(owner.mapId)) ]
  }

  method LevelUp(owner: Owner, pet: Pet) returns (sent: seq<Outbound>)
    ensures sent == LevelUpPackets(owner, pet)
  {
    var packet := new PacketBuilder();
    packet.Add(Header(SendGainItem));
    packet.Add(U8(4));
    packet.Add(U8(0));
    packet.Add(Byte(pet.index));
    sent := [Outbound(packet.fields, ToPlayer(owner.id))];

    packet := new PacketBuilder();
    packet.Add(Header(SendShowSkill));
    packet.Add(I32(owner.id));
    packet.Add(I16(4));
    packet.Add(Byte(pet.index));
    sent := sent + [Outbound(packet.fields, ToMap(owner.mapId))];
    assert sent[1] == LevelUpPackets(owner, pet)[1];
    assert sent[0] == LevelUpPackets(owner, pet)[0];
  }

  // ---------------------------------------------------------------------------
  // updateSummonedPets

  /** The player's pets as `updateSummonedPets` sees them: the id of the pet in each
      summon slot (0 for an empty slot) and the pets by id. */
  datatype PetRoster = PetRoster(summoned: seq<int32>, pets: map<int32, Pet>)

  /** The source looks up the pet of every non-empty slot without a check. */
  predicate RosterValid(r: PetRoster) {
    |r.summoned| == SummonSlots && forall i :: 0 <= i < |r.summoned| && r.summoned[i] != 0 ==> r.summoned[i] in r.pets
  }

  /** The id written for summon slot `i`: the pet's id, or 0 for an empty slot. */
  function SlotPetId(r: PetRoster, i: nat): int32
    requires RosterValid(r) && i < SummonSlots
  {
    if r.summoned[i] != 0 then r.pets[r.summoned[i]].id else 0
  }

  /** The pairs written for the first `n` slots. */
  function SlotPairs(r: PetRoster, n: nat): (p: Packet)
    requires RosterValid(r) && n <= SummonSlots
    ensures |p| == 2 * n
  {
    if n == 0 then [] else SlotPairs(r, n - 1) + [I32(SlotPetId(r, n - 1)), I32(0)]
  }

  /** Slot `i` is written as the pair (pet id or 0, 0) at position 2i. */
  lemma {:induction false} SlotPairsAt(r: PetRoster, n: nat, i: nat)
    requires RosterValid(r) && n <= SummonSlots && i < n
    ensures SlotPairs(r, n)[2 * i] == I32(SlotPetId(r, i)) && SlotPairs(r, n)[2 * i + 1] == I32(0)
  {
    if i < n - 1 {
      SlotPairsAt(r, n - 1, i);
    }
  }

  function SummonedPetsFields(r: PetRoster): Packet
    requires RosterValid(r)
  {
    [Header(SendUpdateStat), U8(0), I16(0x8), I16(0x18)] + SlotPairs(r, SummonSlots) + [U8(0)]
  }

  /** Exactly three slot pairs, then one trailing zero byte, whatever the roster holds. */
  lemma SummonedPetsLayout(r: PetRoster)
    requires RosterValid(r)
    ensures var p := SummonedPetsFields(r);
      && |p| == 4 + 2 * SummonSlots + 1 && p[|p| - 1] == U8(0)
      && forall i :: 0 <= i < SummonSlots ==> p[4 + 2 * i] == I32(SlotPetId(r, i)) && p[5 + 2 * i] == I32(0)
  {
    forall i | 0 <= i < SummonSlots
      ensures SummonedPetsFields(r)[4 + 2 * i] == I32(SlotPetId(r, i))
      ensures SummonedPetsFields(r)[5 + 2 * i] == I32(0)
    {
      SlotPairsAt(r, SummonSlots, i);
    }
  }

  method UpdateSummonedPets(owner: Owner, roster: PetRoster) returns (out: Outbound)
    requires RosterValid(roster)
    ensures out == Outbound(SummonedPetsFields(roster), ToPlayer(owner.id))
  {
    var packet := new PacketBuilder();
    packet.Add(Header(SendUpdateStat));
    packet.Add(U8(0));
    packet.Add(I16(0x8));
    packet.Add(I16(0x18));
    var i: nat := 0;
    while i < SummonSlots
      invariant i <= SummonSlots
      invariant packet.fields == [Header(SendUpdateStat), U8(0), I16(0x8), I16(0x18)] + SlotPairs(roster, i)
    {
      if roster.summoned[i] != 0 {
        packet.Add(I32(roster.pets[roster.summoned[i]].id));
      } else {
        packet.Add(I32(0));
      }
      packet.Add(I32(0));
      i := i + 1;
    }
    packet.Add(U8(0));
    out := Outbound(packet.fields, ToPlayer(owner.id));
  }

  // ---------------------------------------------------------------------------
  // blankUpdate

  method BlankUpdate(owner: Owner) returns (out: Outbound)
    ensures out == Outbound([Header(SendUpdateStat), U8(1), I32(0)], ToPlayer(owner.id))
  {
    var packet := new PacketBuilder();
    packet.Add(Header(SendUpdateStat));
    packet.Add(U8(1));
    packet.Add(I32(0));
    out := Outbound(packet.fields, ToPlayer(owner.id));
  }
}
