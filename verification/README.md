# Vana channel server: quest actions, configuration records, packet builders, reactor scripts

This project models, in Dafny, the packet-level game logic of the Vana channel server:

- **Quests** (`quests.dfy`). The handler `Quests::getQuest` validates a quest action packet, then changes the player's quests or inventory or logs an anomaly. The helpers `giveItem`, `giveMesos` and `giveFame` are the guarded counter updates quest scripts use. Players are a class with maps and integers. The game data providers are a value the handler consults. The channel's anomaly log and the NPC conversations opened are ghost sequences. Each method is proved against a specification function of the old state, and lemmas state what each branch of the handler does.
- **Configuration records** (`configuration.dfy`). `MajorBoss`, `Rates` and `WorldConfig` are classes with their constructors' defaults, plus a `write` that appends fields to a packet builder and a `read` that assigns the fields in place from a packet reader. The round trips are proved over any packet prefix and suffix. For `WorldConfig` the round trip is exact if and only if `maxChannels` (a `size_t` written as `int32_t`) survives that conversion.
- **Packet builders** (`effect_packet.dfy`, `server_packet.dfy`, `pets_packet.dfy`). Each builder grows a `PacketBuilder` and is proved equal to a field-sequence function. Lemmas relate the layouts to what a client parses back: subtypes, optional trailing fields, the shared fragment of the split packet, and the three slot pairs of the summoned-pets update.
- **Reactor scripts** (`lua_reactor.dfy`). The functions a reactor script calls: `getState`, `reset`, `setState`, `dropItem`, `spawnMob` and `spawnZakum`. The Lua stack is a sequence of values. The map registry is a lookup that may fail. Reactors are objects whose state, alive flag and event history the methods update.

The shared packet model (`packet.dfy`) treats a packet as a sequence of typed fields (`I8`, `U8`, `I16`, `I32`, `Bool`, `Str`, fixed-width strings, raw bytes, `int8_t` vectors). Reading a field at the cursor gives back what was written there. The narrowing conversions of C++ (`unsigned char`, `int16_t`, `int32_t`, `int32_t` to `size_t`) are written out as modular arithmetic.

Where the code and its comments disagree, the model follows the code. `StartNpcQuestChat` passes the "quest must be active" gate of `getQuest` alongside `StartQuest` (`Quests.getQuest`, lemma `Quests.NpcChatBypassesGate`). The removal guard of `giveItem` is modelled as written, next to a corrected version (see Findings).

## Model

| member | source | states |
|---|---|---|
| Configuration.MajorBossFields | src/Common/Configuration.h:42-45 | `MajorBoss::write` appends exactly two fields: the attempts and the channel vector |
| Configuration.RatesFields | src/Common/Configuration.h:73-78 | `Rates::write` appends exactly four `int32_t` fields |
| Configuration.WorldConfigFields | src/Common/Configuration.h:122-142 | `WorldConfig::write` appends 27 fields: 13 scalars and strings, then the rates and five bosses |
| Configuration.MajorBossRoundTrip | src/Common/Configuration.h:42-49 | reading a written boss back, after any prefix and before any suffix, gives back attempts and channels exactly |
| Configuration.MajorBossDecodeInverse | src/Common/Configuration.h:46-49 | a successful boss read consumed exactly the two fields `write` emits for the value it returns |
| Configuration.RatesRoundTrip | src/Common/Configuration.h:73-84 | reading written rates back gives all four rates, in the order mobExp, questExp, mobMeso, drop |
| Configuration.RatesDecodeInverse | src/Common/Configuration.h:79-84 | a successful rates read consumed exactly the four fields `write` emits for the value it returns |
| Configuration.LimitsRoundTrip | src/Common/Configuration.h:123-150 | reads 1 to 7 of `read` give back the seven fields written first, over any previous value |
| Configuration.TimersAndTextsRoundTrip | src/Common/Configuration.h:130-156 | reads 8 to 13 give back fameTime, fameResetTime and the three strings; maxChannels comes back through `int32_t` |
| Configuration.NestedRoundTrip | src/Common/Configuration.h:136-162 | the nested rates and five bosses come back in write order |
| Configuration.WorldConfigReadAfterWrite | src/Common/Configuration.h:122-163 | reading a written configuration over any previous value gives every field back, maxChannels truncated to `int32_t` and widened again |
| Configuration.WorldConfigRoundTrip | src/Common/Configuration.h:122-163 | the configuration round-trips exactly if and only if maxChannels is below 2^31 or within 2^31 of 2^64 |
| Configuration.MaxChannelsSurvives | src/Common/Configuration.h:130-151 | `size_t` -> `int32_t` -> `size_t` is the identity exactly on that range |
| Configuration.MaxChannelsCounterexample | src/Common/Configuration.h:130-151 | maxChannels 2^31 is read back as 2^64 - 2^31 |
| Configuration.ReadOverwritesEverything | src/Common/Configuration.h:143-163 | `read` assigns every field: whether it succeeds, and what it yields, does not depend on the previous value |
| Configuration.RateTypesAreDistinctBits | src/Common/Configuration.h:58-63 | the four `Rates::Types` flags are single bits and pairwise disjoint |
| Configuration.MajorBoss.constructor | src/Common/Configuration.h:37-40 | a new boss has 0 attempts and no channels |
| Configuration.MajorBoss.Write | src/Common/Configuration.h:42-45 | appends `MajorBossFields` of the current value and nothing else |
| Configuration.MajorBoss.Read | src/Common/Configuration.h:46-49 | succeeds exactly when both fields are there; then the boss is the decoded value and the cursor moved by 2 |
| Configuration.Rates.constructor | src/Common/Configuration.h:65-71 | all four rates start at 1 |
| Configuration.Rates.Write | src/Common/Configuration.h:73-78 | appends `RatesFields` of the current value |
| Configuration.Rates.Read | src/Common/Configuration.h:79-84 | succeeds exactly when four `int32_t` fields follow; then the rates are the decoded value and the cursor moved by 4 |
| Configuration.GetRates | src/Common/Configuration.h:157 | `getClass<Rates>` yields a fresh record holding the decoded rates |
| Configuration.GetMajorBoss | src/Common/Configuration.h:158-162 | `getClass<MajorBoss>` yields a fresh record holding the decoded boss |
| Configuration.WorldConfig.constructor | src/Common/Configuration.h:108-120 | defaults: ribbon 0, multi-level 1, 4 storage slots, maxStats 999, 3 and 6 characters, load 100, fame times 108000, 20 channels, empty strings, rates 1, empty bosses |
| Configuration.WorldConfig.Write | src/Common/Configuration.h:122-142 | appends `WorldConfigFields` of the current value |
| Configuration.WorldConfig.WriteLimits | src/Common/Configuration.h:123-129 | appends the first seven fields |
| Configuration.WorldConfig.WriteTimersAndTexts | src/Common/Configuration.h:130-135 | appends maxChannels as `int32_t` before fameTime, then the timers and strings |
| Configuration.WorldConfig.WriteNested | src/Common/Configuration.h:136-141 | appends the rates and the five bosses in declaration order |
| Configuration.WorldConfig.Read | src/Common/Configuration.h:143-163 | succeeds exactly when the 27 fields are there; then the record is `ReadWorldConfigInto` of its old value and the cursor moved by 27 |
| Configuration.WorldConfig.ReadLimits | src/Common/Configuration.h:144-150 | assigns the first seven fields from consecutive reads |
| Configuration.WorldConfig.ReadTimersAndTexts | src/Common/Configuration.h:151-156 | assigns maxChannels (widened from `int32_t`), the timers and strings |
| Configuration.WorldConfig.ReadNested | src/Common/Configuration.h:157-162 | assigns the rates and five bosses from consecutive record reads |
| Quests.AddNewItem | src/ChannelServer/Quests.cpp:44 | the holding of the item grows by the amount; every other item is unchanged |
| Quests.TakeItem | src/ChannelServer/Quests.cpp:51 | the holding shrinks by the amount, or to zero when less is held; every other item is unchanged |
| Quests.FinishActiveQuest | src/ChannelServer/Quests.cpp:158 | after the rewards, the quest moves from the active list the rewards left to the completed set; every other active quest keeps the NPC it has after the rewards; items, mesos and fame are whatever the rewards make them, and the player is sent exactly what the rewards send |
| Quests.GiveItemStep | src/ChannelServer/Quests.cpp:40-54 | as written: the notice is always sent; it succeeds exactly when the amount is positive or the holding is at least the (negative) amount; a positive amount is added, a removal takes `-amount` (or all there is); a refusal leaves the player unchanged; other items never change |
| Quests.GiveItemGuardNeverRefuses | src/ChannelServer/Quests.cpp:47-51 | as written, a removal from a non-negative holding is never refused, whatever the amount |
| Quests.GiveItemGuardCounterexample | src/ChannelServer/Quests.cpp:47-49 | with nothing held, removing 5 units succeeds as written and is refused by the corrected guard |
| Quests.GiveItemCheckedStep | src/ChannelServer/Quests.cpp:40-54 | corrected guard: the notice is always sent; a refusal leaves the player unchanged; only the holding of this item changes |
| Quests.GiveItemCheckedExact | src/ChannelServer/Quests.cpp:43-52 | corrected: succeeds exactly when the amount is positive or enough is held; then the holding changes by exactly the amount and never goes negative |
| Quests.GiveMesosStep | src/ChannelServer/Quests.cpp:56-64 | succeeds exactly when the amount is non-negative or covered by the balance; then the balance changes by the amount with one notice; otherwise nothing changes and nothing is sent |
| Quests.GiveMesosKeepsBalance | src/ChannelServer/Quests.cpp:57-61 | a non-negative balance stays non-negative |
| Quests.GiveFameStep | src/ChannelServer/Quests.cpp:66-69 | fame changes by the amount modulo 2^16, exactly when the sum fits `int16_t`; the notice carries the amount as given |
| Quests.GiveFameWrapsAmount | src/ChannelServer/Quests.cpp:67-68 | giving 65536 fame leaves the fame unchanged while announcing 65536 |
| Quests.QuestActionOutcome | src/ChannelServer/Quests.cpp:118-164 | the final switch reads at most the item id, logs at most one anomaly (and then changes nothing); FinishQuest gives exactly `FinishActiveQuest`'s player and notices; the two NPC chat actions make one NPC call and leave the player, and what it is sent, to the conversation handler; every other action leaves mesos and fame unchanged and sends at most one notice, of one item |
| Quests.GetQuestOutcome | src/ChannelServer/Quests.cpp:71-165 | reads at most four fields, logs at most one anomaly, which names the player and a known quest, and then changes nothing; unless the action is FinishQuest or one of the two NPC chat actions, mesos and fame stay unchanged and at most one notice, of one item, is sent |
| Quests.QuestActionFields | src/ChannelServer/Quests.cpp:72-120 | the request layout: action and quest, then the NPC id unless forfeiting, then the item id to restore a lost item |
| Quests.UnknownQuestIgnored | src/ChannelServer/Quests.cpp:75-78 | an unknown quest id ends the call after two reads, with no change and no log |
| Quests.ForfeitOutcome | src/ChannelServer/Quests.cpp:79-92 | a forfeit removes an active quest or logs exactly one anomaly for an inactive one, and never reads the NPC field |
| Quests.InactiveQuestGate | src/ChannelServer/Quests.cpp:94-106 | every action but StartQuest and StartNpcQuestChat on an inactive quest logs one anomaly and changes nothing |
| Quests.NpcChatBypassesGate | src/ChannelServer/Quests.cpp:95-117 | StartNpcQuestChat on an inactive quest with a valid NPC opens the NPC conversation; the player becomes what the conversation handler makes it and is sent what it sends |
| Quests.NpcChatOnActiveQuest | src/ChannelServer/Quests.cpp:160-163 | on an active quest with a valid NPC, StartNpcQuestChat and EndNpcQuestChat open the conversation with `start` true for the first and false for the second; the player becomes what the conversation handler makes it, is sent only what the handler sends, and nothing is logged |
| Quests.InvalidNpcRejected | src/ChannelServer/Quests.cpp:107-117 | an invalid NPC id stops every action but RestoreLostQuestItem with one anomaly and no change |
| Quests.StartQuestOutcome | src/ChannelServer/Quests.cpp:143-156 | an active quest is logged and left alone; otherwise the quest becomes active with the NPC recorded, nothing else changed |
| Quests.RestoreLostItemOutcome | src/ChannelServer/Quests.cpp:119-141 | an unknown item is silently ignored; a quest item adds exactly one unit with one notice; any other item is only logged |
| Quests.FinishQuestOutcome | src/ChannelServer/Quests.cpp:157-159 | FinishQuest on an active quest with a valid NPC grants the rewards and completes it, sending only what the rewards send, with no log or NPC call |
| Quests.GiveItem | src/ChannelServer/Quests.cpp:40-54 | the player's items and outbox become those of `GiveItemStep` (as written) |
| Quests.GiveItemChecked | src/ChannelServer/Quests.cpp:40-54 | the player's items and outbox become those of `GiveItemCheckedStep` (corrected guard) |
| Quests.GiveMesos | src/ChannelServer/Quests.cpp:56-64 | the player's mesos and outbox become those of `GiveMesosStep` |
| Quests.GiveFame | src/ChannelServer/Quests.cpp:66-69 | the player's fame and outbox become those of `GiveFameStep` |
| Quests.GetQuest | src/ChannelServer/Quests.cpp:71-165 | player, outbox, channel log, NPC calls and reader cursor become exactly those of `GetQuestOutcome` |
| Quests.PerformQuestAction | src/ChannelServer/Quests.cpp:118-164 | the switch updates player, outbox, log, NPC calls and cursor exactly as `QuestActionOutcome` says, applying the rewards or the NPC conversation's update to the player and its outbox |
| EffectPacket.MapEffect | src/ChannelServer/EffectPacket.cpp:25-70 | the shared three-field map effect layout: header, subtype, text |
| EffectPacket.MapEffectRoundTrip | src/ChannelServer/EffectPacket.cpp:25-70 | a client parses back the subtype and the text |
| EffectPacket.MapEffectParseInverse | src/ChannelServer/EffectPacket.cpp:25-70 | every packet the client accepts is a map effect of what it parsed |
| EffectPacket.MapEffectsDistinguishable | src/ChannelServer/EffectPacket.cpp:29-67 | music, event, object effect and field sound packets never coincide, whatever their texts |
| EffectPacket.BuildMapEffect | src/ChannelServer/EffectPacket.cpp:25-70 | the builder chain yields `MapEffect` |
| EffectPacket.PlayMusic | src/ChannelServer/EffectPacket.cpp:25-32 | parses as subtype 0x06 with the music name |
| EffectPacket.SendEvent | src/ChannelServer/EffectPacket.cpp:34-42 | parses as subtype 0x03 with the event id |
| EffectPacket.SendEffect | src/ChannelServer/EffectPacket.cpp:44-52 | parses as subtype 0x02 with the effect name |
| EffectPacket.SendFieldSound | src/ChannelServer/EffectPacket.cpp:62-70 | parses as subtype 0x04 with the sound name |
| EffectPacket.PlayPortalSoundEffect | src/ChannelServer/EffectPacket.cpp:54-60 | exactly SMSG_THEATRICS then 0x07 |
| EffectPacket.SendMinigameSound | src/ChannelServer/EffectPacket.cpp:72-79 | SMSG_SOUND then the sound name, with no subtype byte, so it is no map effect |
| EffectPacket.MobItemBuffEffect | src/ChannelServer/EffectPacket.cpp:81-97 | player copy is SMSG_THEATRICS plus the fragment; map copy is SMSG_SKILL_SHOW, the player id, the fragment |
| EffectPacket.MobItemBuffSharedFragment | src/ChannelServer/EffectPacket.cpp:83-95 | the fragment [0x0B, itemId] ends both copies; only the map copy carries the player id |
| EffectPacket.SendMobItemBuffEffect | src/ChannelServer/EffectPacket.cpp:81-97 | the two builders filled from one fragment yield `MobItemBuffEffect` |
| ServerPacket.ShowScrollingHeaderFields | src/ChannelServer/ServerPacket.cpp:26-34 | exactly four fields: SMSG_MESSAGE, type 4, the byte 1, the message |
| ServerPacket.ChangeScrollingHeaderFields | src/ChannelServer/ServerPacket.cpp:36-47 | the same two leading fields, the flag "message non-empty", and the message exactly when the flag is set |
| ServerPacket.ChangeScrollingHeaderRoundTrip | src/ChannelServer/ServerPacket.cpp:36-47 | a client reads every message back, the empty one included |
| ServerPacket.ChangeScrollingHeaderParseInverse | src/ChannelServer/ServerPacket.cpp:36-47 | every accepted packet is the encoding of the message read from it |
| ServerPacket.ScrollingHeadersShareHead | src/ChannelServer/ServerPacket.cpp:29-40 | both builders open with SMSG_MESSAGE and type 4, whatever their messages |
| ServerPacket.ClearScrollingHeader | src/ChannelServer/ServerPacket.cpp:38-41 | an empty message gives exactly [SMSG_MESSAGE, 4, false] |
| ServerPacket.ShowScrollingHeader | src/ChannelServer/ServerPacket.cpp:26-34 | the builder yields `ShowScrollingHeaderFields` |
| ServerPacket.ChangeScrollingHeader | src/ChannelServer/ServerPacket.cpp:36-47 | the builder with its conditional string yields `ChangeScrollingHeaderFields` |
| PetsPacket.ShowChatFields | src/ChannelServer/PetsPacket.cpp:26-34 | seven fields: owner id, the action byte, the message, a closing zero |
| PetsPacket.ShowChat | src/ChannelServer/PetsPacket.cpp:26-36 | yields `ShowChatFields`, sent to the map except the owner |
| PetsPacket.PetSummonedFields | src/ChannelServer/PetsPacket.cpp:47-63 | five leading fields with the summoned flag; the detail block follows exactly when the pet is summoned |
| PetsPacket.PetSummonedDetails | src/ChannelServer/PetsPacket.cpp:52-63 | a client reads the flag, and the name and position exactly when the pet is summoned |
| PetsPacket.AddSummonedDetails | src/ChannelServer/PetsPacket.cpp:54-63 | appends the detail block |
| PetsPacket.PetSummoned | src/ChannelServer/PetsPacket.cpp:47-65 | yields `PetSummonedFields`, sent to the whole map |
| PetsPacket.ShowAnimationFields | src/ChannelServer/PetsPacket.cpp:67-87 | byte after the index is 1 iff animation 1 succeeded, else 0; tail is short(success) unless animation is 1, then a zero byte |
| PetsPacket.ShowAnimation | src/ChannelServer/PetsPacket.cpp:67-89 | yields `ShowAnimationFields`, sent to the owner |
| PetsPacket.UpdatePetFields | src/ChannelServer/PetsPacket.cpp:91-116 | 24 fields: kind and id, the literal bytes, the name in a fixed 13-unit field, the expiry bytes |
| PetsPacket.UpdatePet | src/ChannelServer/PetsPacket.cpp:91-118 | yields `UpdatePetFields`, sent to the owner |
| PetsPacket.AddItemSlot | src/ChannelServer/PetsPacket.cpp:94-103 | appends the slot prefix |
| PetsPacket.AddPetItem | src/ChannelServer/PetsPacket.cpp:104-109 | appends kind, id, literal bytes and fixed-width name |
| PetsPacket.AddPetCondition | src/ChannelServer/PetsPacket.cpp:110-116 | appends level, closeness, fullness, expiry and alive flag |
| PetsPacket.LevelUpPackets | src/ChannelServer/PetsPacket.cpp:120-134 | two four-field packets, GAIN_ITEM to the owner and SHOW_SKILL to the map, each ending with the pet index |
| PetsPacket.LevelUp | src/ChannelServer/PetsPacket.cpp:120-134 | the rebuilt packet pair is `LevelUpPackets` |
| PetsPacket.SlotPairs | src/ChannelServer/PetsPacket.cpp:163-171 | n slots give 2n fields |
| PetsPacket.SlotPairsAt | src/ChannelServer/PetsPacket.cpp:163-171 | slot i is written as (pet id or 0, 0) at position 2i |
| PetsPacket.SummonedPetsLayout | src/ChannelServer/PetsPacket.cpp:157-174 | exactly three slot pairs after the four-field head, then one trailing zero byte |
| PetsPacket.UpdateSummonedPets | src/ChannelServer/PetsPacket.cpp:157-174 | the loop over the three slots yields `SummonedPetsFields`, sent to the owner |
| PetsPacket.BlankUpdate | src/ChannelServer/PetsPacket.cpp:176-182 | exactly [SEND_UPDATE_STAT, 1, int 0], sent to the owner |
| LuaReactor.PushedPairReadBack | src/ChannelServer/LuaReactor.cpp:54-58 | two pushed globals are read back at stack indices -2 and -1, whatever lies below |
| LuaReactor.Lookup | src/ChannelServer/LuaReactor.cpp:59 | the registry finds a reactor exactly for a known (map, reactor) pair |
| LuaReactor.DropAmount | src/ChannelServer/LuaReactor.cpp:84-88 | amount 1 unless argument 2 is a number, then that number (as `int16_t`) |
| LuaReactor.DropContents | src/ChannelServer/LuaReactor.cpp:90-98 | an equip is dropped as one equip whatever the amount; anything else as a stack of the amount |
| LuaReactor.DropOwner | src/ChannelServer/LuaReactor.cpp:93-97 | the owner is the script's player, or 0 without one |
| LuaReactor.OwnershipWindow | src/ChannelServer/LuaReactor.cpp:99 | the window is 100 exactly when a player is there, 0 (free for all) exactly when not |
| LuaReactor.DropOwnershipConsistent | src/ChannelServer/LuaReactor.cpp:93-99 | a drop has no owner exactly when it is free for all at once |
| LuaReactor.ZakumFoothold | src/ChannelServer/LuaReactor.cpp:120-123 | foothold 0 unless argument 3 is a number, then that number (as `int16_t`) |
| LuaReactor.SetStateTakesMapId | src/ChannelServer/LuaReactor.cpp:76-79 | as written, the value passed to `setState` is the map id, whatever the script's argument |
| LuaReactor.SetStateCounterexample | src/ChannelServer/LuaReactor.cpp:76-79 | `setState(3)` on map 211042300 sets 211042300 |
| LuaReactor.ReactorScript.constructor | src/ChannelServer/LuaReactor.cpp:31-36 | the script keeps the player, reactor and map ids it was created with |
| LuaReactor.ReactorScript.GetReactor | src/ChannelServer/LuaReactor.cpp:54-60 | pushes the two globals and finds the reactor registered under (system_mapId, system_reactorId); in a valid registry that reactor has exactly that map and id |
| LuaReactor.ReactorScript.GetState | src/ChannelServer/LuaReactor.cpp:63-66 | returns and pushes the reactor's current state, changing no reactor |
| LuaReactor.ReactorScript.Reset | src/ChannelServer/LuaReactor.cpp:68-74 | the reactor is alive at state 0 whatever it was before (so a second reset leaves the same status), told state 0 with notification, then one trigger broadcast; other reactors' status and events unchanged |
| LuaReactor.ReactorScript.SetState | src/ChannelServer/LuaReactor.cpp:76-79 | corrected: the reactor takes the script's argument as its state, with notification, its alive flag unchanged; other reactors' status and events unchanged |
| LuaReactor.ReactorScript.SetStateAsWritten | src/ChannelServer/LuaReactor.cpp:76-79 | as written: the reactor's state becomes the map id, told with notification, its alive flag unchanged; other reactors' status and events unchanged |
| LuaReactor.ReactorScript.DropItem | src/ChannelServer/LuaReactor.cpp:82-102 | the drop is at the reactor's map and position, holds `DropContents` of the item id and `DropAmount`, owned by `DropOwner` for `OwnershipWindow`; in a valid registry the drop is on the script's map |
| LuaReactor.ReactorScript.SpawnMob | src/ChannelServer/LuaReactor.cpp:110-115 | the mob id read before the lookup is spawned at the reactor's map and position, which in a valid registry is the script's map |
| LuaReactor.ReactorScript.SpawnZakum | src/ChannelServer/LuaReactor.cpp:117-125 | Zakum spawns on the reactor's map at (x, y) as `int16_t`, on `ZakumFoothold`; in a valid registry that is the script's map |

## Left out

- Byte encoding of fields (endianness, string length prefixes, the count in front of a vector, padding of fixed-width strings) is not modelled. A packet is a sequence of typed fields, and reading a field back is taken to give what was written. The numeric values of the packet headers are not part of this model either, so headers are an enumeration.
- Delivery of packets (`player->send`, `sendPacket`, `getMap()->send`) is not modelled beyond the recipient. A notification sent to a player is an entry in a ghost outbox.
- The game data providers (`isQuest`, `isValidNpcId`, `getItemInfo`) are sets and a map. `NpcHandler::handleQuestNpc` is recorded as a call entry. What the conversation script it starts does to the player, and what it sends, is an arbitrary update of the player and its outbox (a function in the data providers). So nothing is promised about the player, or what it is sent, after a StartNpcQuestChat or EndNpcQuestChat action. The log message text is reduced to one anomaly entry with the player id and the quest id.
- Quests.AddNewItem: `Inventory::addNewItem` is not part of this model. It is taken to add exactly the amount, with no cap on a stack or on inventory space and no failure.
- Quests.TakeItem: `Inventory::takeItem` is not part of this model; removing more than is held is taken to clear the holding.
- Quests.FinishActiveQuest: the rewards `finishQuest` hands out come from quest data outside this model, so they are an arbitrary update of the player and its outbox (a function in the data providers). The update is applied first, and then the quest moves from the active list to the completed set that the update left. Whether `finishQuest` moves the quest before or after granting the rewards is not part of this model.
- Quests.StartQuestOutcome and Quests.ForfeitOutcome: `addQuest` and `removeQuest` (Quests.cpp:154, 81) are not part of this model. They are taken to be plain updates of the active list, so their "nothing sent" clauses cover only what the handler itself sends. Any packet these routines send to the player is not modelled.
- Quests.GiveItemStep: `getItemAmount` is not part of this model. Its result is taken to be a signed count, at least as wide as `int16_t`, so the guard `getItemAmount(itemId) < amount` at Quests.cpp:47 compares signed values. The Quests.cpp:47 finding rests on this.
- Quests.GiveMesos: `modifyMesos` is not part of this model, so the balance is an unbounded integer with no upper cap.
- Quests.GiveFame: `setFame` is taken to store its `int16_t` argument unchanged.
- `size_t` is taken to be 64 bits wide (`Int32ToSize` in `packet.dfy`); a 32-bit build is not modelled. Configuration.MaxChannelsSurvives and Configuration.WorldConfigRoundTrip state the surviving range for that width only.
- A read past the end of a packet is modelled as the handler stopping with nothing more changed. The exception the reader throws is not modelled.
- LuaReactor.ReactorScript.GetReactor: the source dereferences the map and reactor without a check. The model reports a failed lookup (`None`, or `false`), and every script function then changes nothing.
- LuaReactor.ReactorScript.SetState: the parameter width of `Reactor::setState` and what it does with `notify` are not part of this model. The state is stored as given, and the call is recorded as a `StateSet` event.
- LuaReactor.ReactorScript.SpawnMob: the map-mob id that `spawnMob` pushes as its result comes from code outside this model and is not returned.
- Lua numbers are integers here. Lua's conversion of floating-point numbers and of numeric strings in `lua_tointeger` and `lua_isnumber` is not modelled.
- The map registry is one map from (map id, reactor id) to reactor. `MapRegistry.Valid` states that it is keyed consistently, as `Maps::getMap(mapId)->getReactor(reactorId)` is. The registry's construction from the maps is not modelled.
- `getPlayer` is a parameter: the script's player id when that player is on the server. `GameLogicUtilities::isEquip` is a function parameter.
- The internals of `Drop::doDrop`, `spawnMob` and `spawnZakum` are not modelled; each returns a description of the drop or spawn it requests.
- `getDistanceReactor` is left out because `Pos` subtraction is not part of this model.
- `movePet`, `changeName` and `showPet` are left out: they are not part of the modelled builders.
- PetsPacket.UpdateSummonedPets requires every non-empty summon slot to name a pet the player has. The source looks the pet up without a check.
- `LoginConfig`, `LogConfig`, `DbConfig` and `InterServerConfig` are left out; their file loading is not part of this model. `LoginServerAcceptConnection.h` is left out too.

## Findings

| source | as written | input that shows it | evidently intended | confidence | as-written member | corrected member |
|---|---|---|---|---|---|---|
| src/ChannelServer/Quests.cpp:47 | a removal is refused when `held < amount`, with `amount` negative, so never for a non-negative holding | nothing held, `giveItem(4000000, -5)`: it returns true and sends the notice | refuse when fewer than `-amount` units are held, as the comment at line 48 says | not executed | Quests.GiveItemGuardCounterexample | Quests.GiveItemCheckedExact |
| src/ChannelServer/LuaReactor.cpp:77 | `getReactor` pushes `system_reactorId` and `system_mapId` before `lua_tointeger(luaVm, -1)` reads the argument. C++17 sequences the object expression of a call before its arguments. | `setState(3)` from a script on map 211042300: the reactor's state becomes 211042300 | the reactor takes the script's argument, 3 | not executed; holds under C++17, which sequences the call's object expression first; before C++17 the order is unspecified and depends on the compiler | LuaReactor.SetStateTakesMapId | LuaReactor.ReactorScript.SetState |
