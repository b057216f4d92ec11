/** The map effect builders (`EffectPacket`): music, events, object effects and
    sounds, and the one split packet, whose player and map copies share a fragment. */
module EffectPacket {
  import opened Packets

  // Subtypes of SMSG_MAP_EFFECT.
  const ObjectEffect: int8 := 0x02
  const EventEffect: int8 := 0x03
  const FieldSound: int8 := 0x04
  const MusicEffect: int8 := 0x06

  const PortalSound: int8 := 0x07
  const MobItemBuff: int8 := 0x0B

  /** The layout `playMusic`, `sendEvent`, `sendEffect` and `sendFieldSound` share. */
  function MapEffect(subtype: int8, text: string): (p: Packet)
    ensures |p| == 3 && p[0] == Header(SmsgMapEffect) && p[2] == Str(text)
  {
    [Header(SmsgMapEffect), I8(subtype), Str(text)]
  }

  /** What a client finds in a map effect packet: the subtype and its text. */
  function ParseMapEffect(p: Packet): Option<(int8, string)> {
    if |p| == 3 && p[0] == Header(SmsgMapEffect) && p[1].I8? && p[2].Str? then Some((p[1].i8, p[2].s))
    else None
  }

  lemma MapEffectRoundTrip(subtype: int8, text: string)
    ensures ParseMapEffect(MapEffect(subtype, text)) == Some((subtype, text))
  {
  }

  /** Every packet the parser accepts is a map effect packet. */
  lemma MapEffectParseInverse(p: Packet)
    requires ParseMapEffect(p).Some?
    ensures p == MapEffect(ParseMapEffect(p).value.0, ParseMapEffect(p).value.1)
  {
  }

  /** The four builders use four different subtypes, so no two of them ever produce the same packet. */
  lemma MapEffectsDistinguishable(text1: string, text2: string)
    ensures var subtypes := [MusicEffect, EventEffect, ObjectEffect, FieldSound];
      forall i, j :: 0 <= i < j < 4 ==> MapEffect(subtypes[i], text1) != MapEffect(subtypes[j], text2)
  {
    var subtypes := [MusicEffect, EventEffect, ObjectEffect, FieldSound];
    forall i, j | 0 <= i < j < 4
      ensures MapEffect(subtypes[i], text1) != MapEffect(subtypes[j], text2)
    {
      assert MapEffect(subtypes[i], text1)[1] != MapEffect(subtypes[j], text2)[1];
    }
  }

  method BuildMapEffect(subtype: int8, text: string) returns (p: Packet)
    ensures p == MapEffect(subtype, text)
  {
    var builder := new PacketBuilder();
    builder.Add(Header(SmsgMapEffect));
    builder.Add(I8(subtype));
    builder.Add(Str(text));
    p := builder.fields;
  }

  method PlayMusic(music: string) returns (p: Packet)
    ensures ParseMapEffect(p) == Some((MusicEffect, music))
  {
    p := BuildMapEffect(MusicEffect, music);
  }

  method SendEvent(id: string) returns (p: Packet)
    ensures ParseMapEffect(p) == Some((EventEffect, id))
  {
    p := BuildMapEffect(EventEffect, id);
  }

  method SendEffect(effect: string) returns (p: Packet)
    ensures ParseMapEffect(p) == Some((ObjectEffect, effect))
  {
    p := BuildMapEffect(ObjectEffect, effect);
  }

  method SendFieldSound(sound: string) returns (p: Packet)
    ensures ParseMapEffect(p) == Some((FieldSound, sound))
  {
    p := BuildMapEffect(FieldSound, sound);
  }

  method PlayPortalSoundEffect() returns (p: Packet)
    ensures p == [Header(SmsgTheatrics), I8(PortalSound)]
  {
    var builder := new PacketBuilder();
    builder.Add(Header(SmsgTheatrics));
    builder.Add(I8(PortalSound));
    p := builder.fields;
  }

  /** A minigame sound carries no subtype byte: the name follows the header. */
  method SendMinigameSound(sound: string) returns (p: Packet)
    ensures p == [Header(SmsgSound), Str(sound)]
    ensures ParseMapEffect(p) == None
  {
    var builder := new PacketBuilder();
    builder.Add(Header(SmsgSound));
    builder.Add(Str(sound));
    p := builder.fields;
  }

  // ---------------------------------------------------------------------------
  // The split packet

  /** The two copies of a split packet: one for the player it concerns, one for the map. */
  datatype SplitPacket = SplitPacket(playerCopy: Packet, mapCopy: Packet)

  /** The fragment both copies of `sendMobItemBuffEffect` end with. */
  function BuffFragment(itemId: int32): Packet {
    [I8(MobItemBuff), I32(itemId)]
  }

  /** `sendMobItemBuffEffect`: the player copy is the fragment under SMSG_THEATRICS, the
      map copy the fragment under SMSG_SKILL_SHOW and the player's id. */
  function MobItemBuffEffect(playerId: int32, itemId: int32): (r: SplitPacket)
    ensures r.playerCopy == [Header(SmsgTheatrics)] + BuffFragment(itemId)
    ensures r.mapCopy == [Header(SmsgSkillShow), I32(playerId)] + BuffFragment(itemId)
  {
    SplitPacket([Header(SmsgTheatrics), I8(MobItemBuff), I32(itemId)],
                [Header(SmsgSkillShow), I32(playerId), I8(MobItemBuff), I32(itemId)])
  }

  /** The fragment is the common suffix of both copies; the map copy is the player copy
      with the player's id inserted after its own header; only the map copy names the player. */
  lemma MobItemBuffSharedFragment(playerId: int32, itemId: int32)
    ensures var r := MobItemBuffEffect(playerId, itemId);
      && r.playerCopy[|r.playerCopy| - 2..] == BuffFragment(itemId) == r.mapCopy[|r.mapCopy| - 2..]
      && |r.mapCopy| == |r.playerCopy| + 1 && r.mapCopy[1] == I32(playerId)
      && (playerId != itemId ==> I32(playerId) !in r.playerCopy)
  {
  }

  method SendMobItemBuffEffect(playerId: int32, itemId: int32) returns (r: SplitPacket)
    ensures r == MobItemBuffEffect(playerId, itemId)
  {
    var packet := new PacketBuilder();
    packet.Add(I8(MobItemBuff));
    packet.Add(I32(itemId));

    var playerCopy := new PacketBuilder();
    playerCopy.Add(Header(SmsgTheatrics));
    playerCopy.AddBuffer(packet);

    var mapCopy := new PacketBuilder();
    mapCopy.Add(Header(SmsgSkillShow));
    mapCopy.Add(I32(playerId));
    mapCopy.AddBuffer(packet);

    r := SplitPacket(playerCopy.fields, mapCopy.fields);
  }
}
