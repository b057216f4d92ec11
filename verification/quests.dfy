/** The channel server's quest action handler (`Quests::getQuest`) and the three
    resource primitives quest scripts use (`giveItem`, `giveMesos`, `giveFame`).

    The data providers are values the handler consults; the inventory routines
    `addNewItem` and `takeItem`, the rewards of `finishQuest` and the NPC conversation
    handler are abstract updates. A notification sent to the player is appended to the player's
    outbox, an anomaly logged by the channel server to the channel's log. */
module Quests {
  import opened Packets

  // ---------------------------------------------------------------------------
  // QuestOpcodes

  const RestoreLostQuestItem: int8 := 0x00
  const StartQuest: int8 := 0x01
  const FinishQuest: int8 := 0x02
  const ForfeitQuest: int8 := 0x03
  const StartNpcQuestChat: int8 := 0x04
  const EndNpcQuestChat: int8 := 0x05

  // ---------------------------------------------------------------------------
  // Collaborators

  datatype ItemInfo = ItemInfo(quest: bool)

  /** What the handler asks of the game data: the known quest ids (`isQuest`), the
      valid NPC ids (`isValidNpcId`), the item information (`getItemInfo`, where a
      missing id is the null result), the rewards a finished quest grants, and what the
      NPC conversation handler (`NpcHandler::handleQuestNpc`) does to the player it is
      given. The last two are updates that may change anything about the player and
      send it any notifications; `finishQuest` then moves the quest in the lists the
      rewards left. */
  datatype DataProviders = DataProviders(
    quests: set<int16>,
    npcs: set<int32>,
    items: map<int32, ItemInfo>,
    rewards: (PlayerState, int16, int32) -> Update,
    npcChat: (PlayerState, int32, bool, int16) -> Update)

  /** What a collaborator outside this model does to a player: the player afterwards and
      the notifications it sent, in order. */
  datatype Update = Update(state: PlayerState, sent: seq<Notice>)

  /** The notifications of `QuestsPacket`: their layout is not part of this model. */
  datatype Notice =
    | GiveItemNotice(itemId: int32, amount: int16)
    | GiveMesosNotice(mesos: int32)
    | GiveFameNotice(fame: int32)
    | OtherNotice(packet: Packet)  // sent by code outside this model

  datatype AnomalyKind =
    | ForfeitNotStarted
    | ActionOnNotStarted
    | InvalidNpc(npcId: int32)
    | NotAQuestItem(itemId: int32, npcId: int32)
    | AlreadyStarted(npcId: int32)

  /** One `MalformedPacket` log entry, reduced to what it identifies. */
  datatype Anomaly = Anomaly(kind: AnomalyKind, playerId: int32, questId: int16)

  /** A call of `NpcHandler::handleQuestNpc(player, npcId, start, questId)`. */
  datatype NpcCall = NpcCall(npcId: int32, start: bool, questId: int16)

  /** The parts of a player these routines read or change: the active quests with the
      NPC that started each, the completed quests, item holdings, mesos and fame. */
  datatype PlayerState = PlayerState(
    active: map<int16, int32>,
    completed: set<int16>,
    items: map<int32, int>,
    mesos: int,
    fame: int16)

  // ---------------------------------------------------------------------------
  // Inventory and quest-list updates

  function Held(items: map<int32, int>, itemId: int32): int {
    if itemId in items then items[itemId] else 0
  }

  /** `Inventory::addNewItem`: the holding of `itemId` grows by `n`. */
  function AddNewItem(items: map<int32, int>, itemId: int32, n: int): (r: map<int32, int>)
    ensures Held(r, itemId) == Held(items, itemId) + n
    ensures forall other :: other != itemId ==> Held(r, other) == Held(items, other)
  {
    items[itemId := Held(items, itemId) + n]
  }

  /** `Inventory::takeItem`: removes `n` units, or all there are when fewer are held. */
  function TakeItem(items: map<int32, int>, itemId: int32, n: nat): (r: map<int32, int>)
    ensures Held(items, itemId) >= n ==> Held(r, itemId) == Held(items, itemId) - n
    ensures Held(items, itemId) < n ==> Held(r, itemId) == 0
    ensures forall other :: other != itemId ==> Held(r, other) == Held(items, other)
  {
    var held := Held(items, itemId);
    items[itemId := if held >= n then held - n else 0]
  }

  /** `finishQuest`: the quest's rewards are granted, and then the quest leaves the active
      list for the completed set; nothing else about the lists the rewards left changes,
      and what the rewards sent is what the player is sent. */
  function FinishActiveQuest(s: PlayerState, questId: int16, npcId: int32,
                             rewards: (PlayerState, int16, int32) -> Update): (r: Update)
    ensures questId !in r.state.active && questId in r.state.completed
    ensures var g := rewards(s, questId, npcId).state;
      && r.state.active.Keys == g.active.Keys - {questId} && r.state.completed == g.completed + {questId}
      && (forall q :: q in r.state.active ==> r.state.active[q] == g.active[q])
      && r.state.items == g.items && r.state.mesos == g.mesos && r.state.fame == g.fame
    ensures r.sent == rewards(s, questId, npcId).sent
  {
    var g := rewards(s, questId, npcId);
    Update(g.state.(active := g.state.active - {questId}, completed := g.state.completed + {questId}), g.sent)
  }

  // ---------------------------------------------------------------------------
  // giveItem, giveMesos, giveFame

  /** What one primitive does: its boolean result, the player afterwards, and what it sent. */
  datatype Step = Step(ok: bool, state: PlayerState, sent: seq<Notice>)

  /** `Quests::giveItem` as written: the notification goes out before any check, and a
      removal is refused only when the holding is below the (negative) `amount`. */
  function GiveItemStep(s: PlayerState, itemId: int32, amount: int16): (r: Step)
    ensures r.sent == [GiveItemNotice(itemId, amount)]
    ensures r.state.(items := s.items) == s
    ensures r.ok <==> (amount > 0 || Held(s.items, itemId) >= amount)
    ensures amount > 0 ==> Held(r.state.items, itemId) == Held(s.items, itemId) + amount
    ensures amount <= 0 && r.ok ==>
      Held(r.state.items, itemId) == if Held(s.items, itemId) >= -(amount as int) then Held(s.items, itemId) + amount else 0
    ensures !r.ok ==> r.state == s
    ensures forall other :: other != itemId ==> Held(r.state.items, other) == Held(s.items, other)
  {
    var sent := [GiveItemNotice(itemId, amount)];
    if amount > 0 then
      Step(true, s.(items := AddNewItem(s.items, itemId, amount)), sent)
    else if Held(s.items, itemId) < amount then
      Step(false, s, sent)
    else
      Step(true, s.(items := TakeItem(s.items, itemId, -(amount as int))), sent)
  }

  /** `Quests::giveItem` with the guard its comment describes: a removal is refused
      when fewer than `-amount` units are held. */
  function GiveItemCheckedStep(s: PlayerState, itemId: int32, amount: int16): (r: Step)
    ensures r.sent == [GiveItemNotice(itemId, amount)]
    ensures r.state.(items := s.items) == s
    ensures !r.ok ==> r.state == s
    ensures forall other :: other != itemId ==> Held(r.state.items, other) == Held(s.items, other)
  {
    var sent := [GiveItemNotice(itemId, amount)];
    if amount > 0 then
      Step(true, s.(items := AddNewItem(s.items, itemId, amount)), sent)
    else if Held(s.items, itemId) < -(amount as int) then
      Step(false, s, sent)
    else
      Step(true, s.(items := TakeItem(s.items, itemId, -(amount as int))), sent)
  }

  /** `Quests::giveMesos`: a withdrawal that would leave a negative balance is refused
      silently; anything else changes the balance and notifies the player. */
  function GiveMesosStep(s: PlayerState, amount: int32): (r: Step)
    ensures r.ok <==> (amount >= 0 || s.mesos + amount >= 0)
    ensures r.ok ==> r.state == s.(mesos := s.mesos + amount) && r.sent == [GiveMesosNotice(amount)]
    ensures !r.ok ==> r.state == s && r.sent == []
  {
    if amount < 0 && s.mesos + amount < 0 then Step(false, s, [])
    else Step(true, s.(mesos := s.mesos + amount), [GiveMesosNotice(amount)])
  }

  /** `Quests::giveFame`: the amount is cut to `int16_t` before it is added, the sum is
      stored as `int16_t`, and the notification carries the amount as given. */
  function GiveFameStep(s: PlayerState, amount: int32): (r: Step)
    ensures r.ok && r.sent == [GiveFameNotice(amount)]
    ensures r.state.(fame := s.fame) == s
    ensures (r.state.fame - s.fame - amount) % 0x1_0000 == 0
    ensures -0x8000 <= s.fame + amount < 0x8000 ==> r.state.fame == s.fame + amount
  {
    Step(true, s.(fame := ToInt16(s.fame + ToInt16(amount))), [GiveFameNotice(amount)])
  }

  /** As written, `giveItem` never refuses a removal from a non-negative holding,
      however many units are asked for. */
  lemma GiveItemGuardNeverRefuses(s: PlayerState, itemId: int32, amount: int16)
    requires Held(s.items, itemId) >= 0
    ensures GiveItemStep(s, itemId, amount).ok
  {
  }

  /** The input that shows it: nothing held, five units asked for. `giveItem` reports
      success, while the corrected guard refuses. */
  lemma GiveItemGuardCounterexample(s: PlayerState)
    requires s.items == map[]
    ensures GiveItemStep(s, 4000000, -5).ok
    ensures !GiveItemCheckedStep(s, 4000000, -5).ok
  {
  }

  /** With the corrected guard, `giveItem` succeeds exactly when the player holds enough,
      and then the holding changes by exactly `amount`: a holding never goes negative. */
  lemma GiveItemCheckedExact(s: PlayerState, itemId: int32, amount: int16)
    ensures var r := GiveItemCheckedStep(s, itemId, amount);
      && (r.ok <==> (amount > 0 || Held(s.items, itemId) >= -(amount as int)))
      && (r.ok ==> Held(r.state.items, itemId) == Held(s.items, itemId) + amount)
      && (Held(s.items, itemId) >= 0 ==> Held(r.state.items, itemId) >= 0)
  {
  }

  /** `giveMesos` keeps the balance non-negative. */
  lemma GiveMesosKeepsBalance(s: PlayerState, amount: int32)
    requires s.mesos >= 0
    ensures GiveMesosStep(s, amount).state.mesos >= 0
  {
  }

  /** `giveFame` adds the amount only modulo 2^16: 65536 fame points leave the fame as
      it was, while the notification still announces 65536. */
  lemma GiveFameWrapsAmount(s: PlayerState)
    ensures GiveFameStep(s, 0x1_0000).state == s
    ensures GiveFameStep(s, 0x1_0000).sent == [GiveFameNotice(0x1_0000)]
  {
  }

  // ---------------------------------------------------------------------------
  // getQuest

  /** Everything one `getQuest` call does: the player afterwards, the anomalies it logs,
      the notifications it sends, the NPC conversations it opens and where it leaves
      the reader's cursor. */
  datatype QuestOutcome = QuestOutcome(
    state: PlayerState,
    log: seq<Anomaly>,
    sent: seq<Notice>,
    npcCalls: seq<NpcCall>,
    pos: nat)

  function Silent(s: PlayerState, pos: nat): QuestOutcome {
    QuestOutcome(s, [], [], [], pos)
  }

  function Logged(s: PlayerState, a: Anomaly, pos: nat): QuestOutcome {
    QuestOutcome(s, [a], [], [], pos)
  }

  /** The `switch` of `getQuest`, reached once every check has passed; `pos` is the
      cursor after the NPC id. An action code outside the six does nothing. */
  function QuestActionOutcome(s: PlayerState, playerId: int32, env: DataProviders,
                              act: int8, questId: int16, npcId: int32, buf: Packet, pos: nat): (o: QuestOutcome)
    ensures pos <= o.pos <= pos + 1
    ensures |o.log| <= 1 && (o.log != [] ==> o.state == s && o.sent == [] && o.npcCalls == [])
    ensures act != FinishQuest && act != StartNpcQuestChat && act != EndNpcQuestChat ==>
              o.state.mesos == s.mesos && o.state.fame == s.fame
    ensures act == FinishQuest ==> Update(o.state, o.sent) == FinishActiveQuest(s, questId, npcId, env.rewards)
    ensures act == StartNpcQuestChat || act == EndNpcQuestChat ==>
              o.npcCalls == [NpcCall(npcId, act == StartNpcQuestChat, questId)]
              && Update(o.state, o.sent) == env.npcChat(s, npcId, act == StartNpcQuestChat, questId)
    ensures act != FinishQuest && act != StartNpcQuestChat && act != EndNpcQuestChat ==>
              |o.sent| <= 1 && forall n :: n in o.sent ==> n.GiveItemNotice? && n.amount == 1
  {
    if act == RestoreLostQuestItem then
      var item := I32At(buf, pos);
      if item.None? then Silent(s, pos)
      else if item.value !in env.items then Silent(s, pos + 1)
      else if env.items[item.value].quest then
        QuestOutcome(s.(items := AddNewItem(s.items, item.value, 1)), [], [GiveItemNotice(item.value, 1)], [], pos + 1)
      else Logged(s, Anomaly(NotAQuestItem(item.value, npcId), playerId, questId), pos + 1)
    else if act == StartQuest then
      if questId in s.active then Logged(s, Anomaly(AlreadyStarted(npcId), playerId, questId), pos)
      else Silent(s.(active := s.active[questId := npcId]), pos)
    else if act == FinishQuest then
      var f := FinishActiveQuest(s, questId, npcId, env.rewards);
      QuestOutcome(f.state, [], f.sent, [], pos)
    else if act == StartNpcQuestChat || act == EndNpcQuestChat then
      var start := act == StartNpcQuestChat;
      var u := env.npcChat(s, npcId, start, questId);
      QuestOutcome(u.state, [], u.sent, [NpcCall(npcId, start, questId)], pos)
    else
      Silent(s, pos)
  }

  /** `Quests::getQuest`, reading the action at `pos`. A read past the end of the packet
      (or of a field of another type) abandons the packet with nothing changed. */
  function GetQuestOutcome(s: PlayerState, playerId: int32, env: DataProviders, buf: Packet, pos: nat): (o: QuestOutcome)
    ensures pos <= o.pos <= pos + 4
    ensures |o.log| <= 1 && (o.log != [] ==> o.state == s && o.sent == [] && o.npcCalls == [])
    ensures forall a :: a in o.log ==> a.playerId == playerId && a.questId in env.quests
    ensures (I8At(buf, pos) != Some(FinishQuest) && I8At(buf, pos) != Some(StartNpcQuestChat)
             && I8At(buf, pos) != Some(EndNpcQuestChat)) ==>
              o.state.mesos == s.mesos && o.state.fame == s.fame
              && |o.sent| <= 1 && forall n :: n in o.sent ==> n.GiveItemNotice? && n.amount == 1
  {
    var act := I8At(buf, pos);
    var quest := I16At(buf, pos + 1);
    if act.None? then Silent(s, pos)
    else if quest.None? then Silent(s, pos + 1)
    else if quest.value !in env.quests then Silent(s, pos + 2)
    else if act.value == ForfeitQuest then
      if quest.value in s.active then Silent(s.(active := s.active - {quest.value}), pos + 2)
      else Logged(s, Anomaly(ForfeitNotStarted, playerId, quest.value), pos + 2)
    else
      var npc := I32At(buf, pos + 2);
      if npc.None? then Silent(s, pos + 2)
      else if act.value != StartQuest && act.value != StartNpcQuestChat && quest.value !in s.active then
        Logged(s, Anomaly(ActionOnNotStarted, playerId, quest.value), pos + 3)
      else if act.value != RestoreLostQuestItem && npc.value !in env.npcs then
        Logged(s, Anomaly(InvalidNpc(npc.value), playerId, quest.value), pos + 3)
      else
        QuestActionOutcome(s, playerId, env, act.value, quest.value, npc.value, buf, pos + 3)
  }

  /** The packet `getQuest` reads: action, quest id, then (but for a forfeit) the NPC id
      and, to restore a lost item, the item id. */
  function QuestActionFields(act: int8, questId: int16, npcId: int32, itemId: int32): (p: Packet)
    ensures |p| == if act == ForfeitQuest then 2 else if act == RestoreLostQuestItem then 4 else 3
    ensures p[..2] == [I8(act), I16(questId)]
  {
    [I8(act), I16(questId)]
    + (if act == ForfeitQuest then [] else [I32(npcId)])
    + (if act == RestoreLostQuestItem then [I32(itemId)] else [])
  }

  // ---------------------------------------------------------------------------
  // Properties of getQuest

  /** An unknown quest id ends the call after two reads, with nothing changed or logged. */
  lemma UnknownQuestIgnored(s: PlayerState, playerId: int32, env: DataProviders,
                            act: int8, questId: int16, npcId: int32, itemId: int32, suffix: Packet)
    requires questId !in env.quests
    ensures GetQuestOutcome(s, playerId, env, QuestActionFields(act, questId, npcId, itemId) + suffix, 0)
         == Silent(s, 2)
  {
    var buf := QuestActionFields(act, questId, npcId, itemId) + suffix;
    assert buf[0] == I8(act) && buf[1] == I16(questId);
  }

  /** A forfeit removes an active quest, or logs exactly one anomaly for an inactive one;
      in both cases the NPC field is never read. */
  lemma ForfeitOutcome(s: PlayerState, playerId: int32, env: DataProviders, questId: int16, suffix: Packet)
    requires questId in env.quests
    ensures var o := GetQuestOutcome(s, playerId, env, [I8(ForfeitQuest), I16(questId)] + suffix, 0);
      && o.pos == 2 && o.sent == [] && o.npcCalls == []
      && (questId in s.active ==> o.state == s.(active := s.active - {questId}) && o.log == [])
      && (questId !in s.active ==> o.state == s && o.log == [Anomaly(ForfeitNotStarted, playerId, questId)])
  {
    var buf := [I8(ForfeitQuest), I16(questId)] + suffix;
    assert buf[0] == I8(ForfeitQuest) && buf[1] == I16(questId);
  }

  /** Every action but StartQuest and StartNpcQuestChat (a forfeit aside) needs the quest
      to be active already: otherwise one anomaly, nothing else. */
  lemma InactiveQuestGate(s: PlayerState, playerId: int32, env: DataProviders,
                          act: int8, questId: int16, npcId: int32, itemId: int32, suffix: Packet)
    requires questId in env.quests && questId !in s.active
    requires act != ForfeitQuest && act != StartQuest && act != StartNpcQuestChat
    ensures GetQuestOutcome(s, playerId, env, QuestActionFields(act, questId, npcId, itemId) + suffix, 0)
         == Logged(s, Anomaly(ActionOnNotStarted, playerId, questId), 3)
  {
    var buf := QuestActionFields(act, questId, npcId, itemId) + suffix;
    assert buf[0] == I8(act) && buf[1] == I16(questId) && buf[2] == I32(npcId);
  }

  /** The gate lets StartNpcQuestChat through for a quest that is not active: with a valid
      NPC it opens the conversation, and the player is what the conversation makes it
      and is sent what the conversation sends. */
  lemma NpcChatBypassesGate(s: PlayerState, playerId: int32, env: DataProviders,
                            questId: int16, npcId: int32, suffix: Packet)
    requires questId in env.quests && questId !in s.active && npcId in env.npcs
    ensures GetQuestOutcome(s, playerId, env, [I8(StartNpcQuestChat), I16(questId), I32(npcId)] + suffix, 0)
         == var u := env.npcChat(s, npcId, true, questId);
            QuestOutcome(u.state, [], u.sent, [NpcCall(npcId, true, questId)], 3)
  {
    var buf := [I8(StartNpcQuestChat), I16(questId), I32(npcId)] + suffix;
    assert buf[0] == I8(StartNpcQuestChat) && buf[1] == I16(questId) && buf[2] == I32(npcId);
  }

  /** On an active quest with a valid NPC, StartNpcQuestChat and EndNpcQuestChat open the
      conversation, telling the NPC handler whether it starts; the player is what the
      conversation makes it, it is sent only what the conversation sends, and nothing
      is logged. */
  lemma NpcChatOnActiveQuest(s: PlayerState, playerId: int32, env: DataProviders,
                             act: int8, questId: int16, npcId: int32, suffix: Packet)
    requires questId in env.quests && questId in s.active && npcId in env.npcs
    requires act == StartNpcQuestChat || act == EndNpcQuestChat
    ensures GetQuestOutcome(s, playerId, env, [I8(act), I16(questId), I32(npcId)] + suffix, 0)
         == var u := env.npcChat(s, npcId, act == StartNpcQuestChat, questId);
            QuestOutcome(u.state, [], u.sent, [NpcCall(npcId, act == StartNpcQuestChat, questId)], 3)
  {
    var buf := [I8(act), I16(questId), I32(npcId)] + suffix;
    assert buf[0] == I8(act) && buf[1] == I16(questId) && buf[2] == I32(npcId);
  }

  /** An invalid NPC id stops every action but RestoreLostQuestItem that passed the gate,
      with one anomaly and nothing changed. */
  lemma InvalidNpcRejected(s: PlayerState, playerId: int32, env: DataProviders,
                           act: int8, questId: int16, npcId: int32, itemId: int32, suffix: Packet)
    requires questId in env.quests && npcId !in env.npcs
    requires act != ForfeitQuest && act != RestoreLostQuestItem
    requires act == StartQuest || act == StartNpcQuestChat || questId in s.active
    ensures GetQuestOutcome(s, playerId, env, QuestActionFields(act, questId, npcId, itemId) + suffix, 0)
         == Logged(s, Anomaly(InvalidNpc(npcId), playerId, questId), 3)
  {
    var buf := QuestActionFields(act, questId, npcId, itemId) + suffix;
    assert buf[0] == I8(act) && buf[1] == I16(questId) && buf[2] == I32(npcId);
  }

  /** StartQuest with a valid NPC: an active quest is logged and left as is; otherwise the
      quest becomes active, remembering the NPC, and nothing else changes. */
  lemma StartQuestOutcome(s: PlayerState, playerId: int32, env: DataProviders,
                          questId: int16, npcId: int32, suffix: Packet)
    requires questId in env.quests && npcId in env.npcs
    ensures var o := GetQuestOutcome(s, playerId, env, [I8(StartQuest), I16(questId), I32(npcId)] + suffix, 0);
      && o.pos == 3 && o.sent == [] && o.npcCalls == []
      && (questId in s.active ==> o.state == s && o.log == [Anomaly(AlreadyStarted(npcId), playerId, questId)])
      && (questId !in s.active ==> o.state == s.(active := s.active[questId := npcId]) && o.log == [])
  {
    var buf := [I8(StartQuest), I16(questId), I32(npcId)] + suffix;
    assert buf[0] == I8(StartQuest) && buf[1] == I16(questId) && buf[2] == I32(npcId);
  }

  /** RestoreLostQuestItem on an active quest, whatever the NPC field holds: an unknown
      item is ignored, a quest item is given once with one notification, any other item
      is logged and the inventory left alone. */
  lemma RestoreLostItemOutcome(s: PlayerState, playerId: int32, env: DataProviders,
                               questId: int16, npcId: int32, itemId: int32, suffix: Packet)
    requires questId in env.quests && questId in s.active
    ensures var o := GetQuestOutcome(s, playerId, env, QuestActionFields(RestoreLostQuestItem, questId, npcId, itemId) + suffix, 0);
      && o.pos == 4 && o.npcCalls == []
      && (itemId !in env.items ==> o == Silent(s, 4))
      && (itemId in env.items && env.items[itemId].quest ==>
            && o.state == s.(items := AddNewItem(s.items, itemId, 1))
            && Held(o.state.items, itemId) == Held(s.items, itemId) + 1
            && o.sent == [GiveItemNotice(itemId, 1)] && o.log == [])
      && (itemId in env.items && !env.items[itemId].quest ==>
            o == Logged(s, Anomaly(NotAQuestItem(itemId, npcId), playerId, questId), 4))
  {
    var buf := QuestActionFields(RestoreLostQuestItem, questId, npcId, itemId) + suffix;
    assert buf[0] == I8(RestoreLostQuestItem) && buf[1] == I16(questId);
    assert buf[2] == I32(npcId) && buf[3] == I32(itemId);
  }

  /** FinishQuest on an active quest with a valid NPC grants its rewards and completes it. */
  lemma FinishQuestOutcome(s: PlayerState, playerId: int32, env: DataProviders,
                           questId: int16, npcId: int32, suffix: Packet)
    requires questId in env.quests && questId in s.active && npcId in env.npcs
    ensures var o := GetQuestOutcome(s, playerId, env, [I8(FinishQuest), I16(questId), I32(npcId)] + suffix, 0);
      var f := FinishActiveQuest(s, questId, npcId, env.rewards);
      && o == QuestOutcome(f.state, [], f.sent, [], 3)
      && questId !in o.state.active && questId in o.state.completed
  {
    var buf := [I8(FinishQuest), I16(questId), I32(npcId)] + suffix;
    assert buf[0] == I8(FinishQuest) && buf[1] == I16(questId) && buf[2] == I32(npcId);
  }

  // ---------------------------------------------------------------------------
  // The objects

  class Player {
    const id: int32
    var active: map<int16, int32>
    var completed: set<int16>
    var items: map<int32, int>
    var mesos: int
    var fame: int16
    ghost var outbox: seq<Notice>

    constructor (id: int32, s: PlayerState)
      ensures this.id == id && State() == s && outbox == []
    {
      this.id := id;
      active, completed, items, mesos, fame := s.active, s.completed, s.items, s.mesos, s.fame;
      outbox := [];
    }

    function State(): PlayerState
      reads this
    {
      PlayerState(active, completed, items, mesos, fame)
    }
  }

  /** The channel server's log and the NPC handler, as far as quests reach them. */
  class Channel {
    const providers: DataProviders
    ghost var log: seq<Anomaly>
    ghost var npcCalls: seq<NpcCall>

    constructor (providers: DataProviders)
      ensures this.providers == providers && log == [] && npcCalls == []
    {
      this.providers := providers;
      log, npcCalls := [], [];
    }
  }

  method GiveItem(player: Player, itemId: int32, amount: int16) returns (ok: bool)
    modifies player`items, player`outbox
    ensures var r := GiveItemStep(old(player.State()), itemId, amount);
      ok == r.ok && player.State() == r.state && player.outbox == old(player.outbox) + r.sent
  {
    player.outbox := player.outbox + [GiveItemNotice(itemId, amount)];
    if amount > 0 {
      player.items := AddNewItem(player.items, itemId, amount);
    } else {
      if Held(player.items, itemId) < amount {
        return false;
      }
      player.items := TakeItem(player.items, itemId, -(amount as int));
    }
    ok := true;
  }

  /** `giveItem` with the removal guard corrected. */
  method GiveItemChecked(player: Player, itemId: int32, amount: int16) returns (ok: bool)
    modifies player`items, player`outbox
    ensures var r := GiveItemCheckedStep(old(player.State()), itemId, amount);
      ok == r.ok && player.State() == r.state && player.outbox == old(player.outbox) + r.sent
  {
    player.outbox := player.outbox + [GiveItemNotice(itemId, amount)];
    if amount > 0 {
      player.items := AddNewItem(player.items, itemId, amount);
    } else {
      if Held(player.items, itemId) < -(amount as int) {
        return false;
      }
      player.items := TakeItem(player.items, itemId, -(amount as int));
    }
    ok := true;
  }

  method GiveMesos(player: Player, amount: int32) returns (ok: bool)
    modifies player`mesos, player`outbox
    ensures var r := GiveMesosStep(old(player.State()), amount);
      ok == r.ok && player.State() == r.state && player.outbox == old(player.outbox) + r.sent
  {
    if amount < 0 && player.mesos + amount < 0 {
      return false;
    }
    player.mesos := player.mesos + amount;
    player.outbox := player.outbox + [GiveMesosNotice(amount)];
    ok := true;
  }

  method GiveFame(player: Player, amount: int32)
    modifies player`fame, player`outbox
    ensures var r := GiveFameStep(old(player.State()), amount);
      player.State() == r.state && player.outbox == old(player.outbox) + r.sent
  {
    player.fame := ToInt16(player.fame + ToInt16(amount));
    player.outbox := player.outbox + [GiveFameNotice(amount)];
  }

  method GetQuest(channel: Channel, player: Player, rd: PacketReader)
    modifies channel, player, rd
    ensures var o := GetQuestOutcome(old(player.State()), player.id, channel.providers, rd.buf, old(rd.pos));
      && player.State() == o.state && player.outbox == old(player.outbox) + o.sent
      && channel.log == old(channel.log) + o.log && channel.npcCalls == old(channel.npcCalls) + o.npcCalls
      && rd.pos == o.pos
  {
    var a := rd.GetI8();
    if a.None? { return; }
    var act := a.value;
    var q := rd.GetI16();
    if q.None? { return; }
    var questId := q.value;
    if questId !in channel.providers.quests {
      return;
    }
    if act == ForfeitQuest {
      if questId in player.active {
        player.active := player.active - {questId};
      } else {
        channel.log := channel.log + [Anomaly(ForfeitNotStarted, player.id, questId)];
      }
      return;
    }
    var n := rd.GetI32();
    if n.None? { return; }
    var npcId := n.value;
    if act != StartQuest && act != StartNpcQuestChat {
      if questId !in player.active {
        channel.log := channel.log + [Anomaly(ActionOnNotStarted, player.id, questId)];
        return;
      }
    }
    if act != RestoreLostQuestItem && npcId !in channel.providers.npcs {
      channel.log := channel.log + [Anomaly(InvalidNpc(npcId), player.id, questId)];
      return;
    }
    PerformQuestAction(channel, player, rd, act, questId, npcId);
  }

  /** The `switch` at the end of `getQuest`. */
  method PerformQuestAction(channel: Channel, player: Player, rd: PacketReader, act: int8, questId: int16, npcId: int32)
    modifies channel`log, channel`npcCalls, player`active, player`completed, player`items, player`mesos, player`fame
    modifies player`outbox, rd
    ensures var o := QuestActionOutcome(old(player.State()), player.id, channel.providers, act, questId, npcId, rd.buf, old(rd.pos));
      && player.State() == o.state && player.outbox == old(player.outbox) + o.sent
      && channel.log == old(channel.log) + o.log && channel.npcCalls == old(channel.npcCalls) + o.npcCalls
      && rd.pos == o.pos
  {
    if act == RestoreLostQuestItem {
      var item := rd.GetI32();
      if item.None? { return; }
      var itemId := item.value;
      if itemId !in channel.providers.items {
        return;
      }
      if channel.providers.items[itemId].quest {
        player.outbox := player.outbox + [GiveItemNotice(itemId, 1)];
        player.items := AddNewItem(player.items, itemId, 1);
      } else {
        channel.log := channel.log + [Anomaly(NotAQuestItem(itemId, npcId), player.id, questId)];
      }
    } else if act == StartQuest {
      if questId in player.active {
        channel.log := channel.log + [Anomaly(AlreadyStarted(npcId), player.id, questId)];
      } else {
        player.active := player.active[questId := npcId];
      }
    } else if act == FinishQuest {
      var granted := channel.providers.rewards(player.State(), questId, npcId);
      player.active, player.completed := granted.state.active, granted.state.completed;
      player.items, player.mesos, player.fame := granted.state.items, granted.state.mesos, granted.state.fame;
      player.outbox := player.outbox + granted.sent;
      player.active := player.active - {questId};
      player.completed := player.completed + {questId};
    } else if act == StartNpcQuestChat || act == EndNpcQuestChat {
      var start := act == StartNpcQuestChat;
      var talked := channel.providers.npcChat(player.State(), npcId, start, questId);
      player.active, player.completed := talked.state.active, talked.state.completed;
      player.items, player.mesos, player.fame := talked.state.items, talked.state.mesos, talked.state.fame;
      player.outbox := player.outbox + talked.sent;
      channel.npcCalls := channel.npcCalls + [NpcCall(npcId, start, questId)];
    }
  }
}
