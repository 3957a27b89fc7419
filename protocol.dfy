/** The protocol item layer of `common/protocol.h`: the string-to-string parameter
    table every item carries, the typed fields that command and event subclasses keep
    in step with it, the command tick counter and extra-data slot, the list-bearing
    events, and the item ids and item-type tags.

    C++ inheritance is modelled by composition: a `ProtocolItem` object holds the
    table, a `Command` holds its `ProtocolItem` part, and `ChatCommand` and
    `GameCommand` hold their `Command` part. */
module Protocol {
  import opened QtString

  // ---------------------------------------------------------------------------
  // Item ids and item-type tags
  // ---------------------------------------------------------------------------

  /** The concrete item types of the `ItemId` enum. */
  datatype ItemId =
    | CommandDeckUpload | CommandDeckSelect
    | EventListChatChannels | EventChatListPlayers | EventListGames
    | EventGameStateChanged | EventCreateArrow | EventCreateCounter | EventDrawCards
    | ResponseDeckList | ResponseDeckDownload | ResponseDeckUpload

  /** Distance of each enumerator from `ItemId_Other`. */
  function Offset(id: ItemId): nat
  {
    match id
    case CommandDeckUpload => 100
    case CommandDeckSelect => 101
    case EventListChatChannels => 200
    case EventChatListPlayers => 201
    case EventListGames => 202
    case EventGameStateChanged => 203
    case EventCreateArrow => 204
    case EventCreateCounter => 205
    case EventDrawCards => 206
    case ResponseDeckList => 300
    case ResponseDeckDownload => 301
    case ResponseDeckUpload => 302
  }

  /** The integer value of an enumerator; `other` is the value of `ItemId_Other`,
      which `InvalidCommand` and `ProtocolResponse` report as their own id. */
  function ItemIdValue(id: ItemId, other: int): int
  {
    other + Offset(id)
  }

  /** Recognises the value of an enumerator, the inverse of `ItemIdValue`. */
  function ItemIdFromValue(v: int, other: int): (r: Option<ItemId>)
    ensures r.Some? ==> ItemIdValue(r.value, other) == v
  {
    match v - other
    case 100 => Some(CommandDeckUpload)
    case 101 => Some(CommandDeckSelect)
    case 200 => Some(EventListChatChannels)
    case 201 => Some(EventChatListPlayers)
    case 202 => Some(EventListGames)
    case 203 => Some(EventGameStateChanged)
    case 204 => Some(EventCreateArrow)
    case 205 => Some(EventCreateCounter)
    case 206 => Some(EventDrawCards)
    case 300 => Some(ResponseDeckList)
    case 301 => Some(ResponseDeckDownload)
    case 302 => Some(ResponseDeckUpload)
    case _ => None
  }

  lemma ItemIdRoundTrip(id: ItemId, other: int)
    ensures ItemIdFromValue(ItemIdValue(id, other), other) == Some(id)
  {
  }

  /** The enumerators are pairwise distinct, and none equals `ItemId_Other`. */
  lemma ItemIdsDistinct(a: ItemId, b: ItemId, other: int)
    ensures ItemIdValue(a, other) == ItemIdValue(b, other) ==> a == b
    ensures ItemIdValue(a, other) != other
  {
    ItemIdRoundTrip(a, other);
    ItemIdRoundTrip(b, other);
  }

  /** The role an item plays, reported by `getItemType`. */
  datatype Role = CommandRole | ResponseRole | GenericEventRole | GameEventRole | ChatEventRole

  function RoleTag(r: Role): string
  {
    match r
    case CommandRole => "cmd"
    case ResponseRole => "resp"
    case GenericEventRole => "generic_event"
    case GameEventRole => "game_event"
    case ChatEventRole => "chat_event"
  }

  /** Recognises a role tag, the inverse of `RoleTag`. */
  function RoleFromTag(s: string): (r: Option<Role>)
    ensures r.Some? ==> RoleTag(r.value) == s
  {
    if s == "cmd" then Some(CommandRole)
    else if s == "resp" then Some(ResponseRole)
    else if s == "generic_event" then Some(GenericEventRole)
    else if s == "game_event" then Some(GameEventRole)
    else if s == "chat_event" then Some(ChatEventRole)
    else None
  }

  /** Distinct roles have distinct tags. */
  lemma RoleTagRoundTrip(r: Role)
    ensures RoleFromTag(RoleTag(r)) == Some(r)
  {
  }

  /** The role each concrete item inherits: commands derive from `Command` (directly or
      through `GameCommand`), responses from `ProtocolResponse`, events from
      `GenericEvent`, `ChatEvent` or `GameEvent`. The enum groups them by hundreds. */
  function RoleOf(id: ItemId): (r: Role)
    ensures r == CommandRole <==> 100 <= Offset(id) < 200
    ensures r == ResponseRole <==> 300 <= Offset(id) < 400
    ensures r in {GenericEventRole, GameEventRole, ChatEventRole} <==> 200 <= Offset(id) < 300
  {
    match id
    case CommandDeckUpload => CommandRole
    case CommandDeckSelect => CommandRole
    case EventListChatChannels => GenericEventRole
    case EventChatListPlayers => ChatEventRole
    case EventListGames => GenericEventRole
    case EventGameStateChanged => GameEventRole
    case EventCreateArrow => GameEventRole
    case EventCreateCounter => GameEventRole
    case EventDrawCards => GameEventRole
    case ResponseDeckList => ResponseRole
    case ResponseDeckDownload => ResponseRole
    case ResponseDeckUpload => ResponseRole
  }

  // ---------------------------------------------------------------------------
  // The parameter table
  // ---------------------------------------------------------------------------

  /** `QMap<QString, QString>`: keyed, and ordered by key rather than by insertion. */
  type Table = map<string, string>

  /** Reading `parameters[key]`: a missing key reads as the empty string. */
  function Lookup(t: Table, key: string): string
  {
    if key in t then t[key] else ""
  }

  /** Reading a key just written gives the written text; reading any other key is
      unaffected by the write. */
  lemma LookupAfterWrite(t: Table, k: string, k2: string, v: string)
    ensures Lookup(t[k := v], k) == v
    ensures k2 != k ==> Lookup(t[k := v], k2) == Lookup(t, k2)
  {
  }

  /** The table after the non-const `parameters[key]`, which inserts a missing key
      with the empty string and leaves every existing entry alone. */
  function Touch(t: Table, key: string): (r: Table)
    ensures key in r && r[key] == Lookup(t, key)
    ensures forall k :: k in t ==> k in r && r[k] == t[k]
    ensures forall k :: k in r && k != key ==> k in t
  {
    if key in t then t else t[key := ""]
  }

  /** Two tables hold the same entries for every key other than `key`. */
  ghost predicate AgreeExcept(t: Table, u: Table, key: string)
  {
    forall k :: k != key ==> (k in t <==> k in u) && (k in t ==> t[k] == u[k])
  }

  /** The text `setParameter(name, bool)` stores. */
  function BoolText(b: bool): (s: string)
    ensures s == "1" || s == "0"
    ensures s == "1" <==> b
  {
    if b then "1" else "0"
  }

  /** An int stored with `setParameter(name, int)` reads back unchanged through `toInt()`,
      whatever else the table holds. */
  lemma IntParameterRoundTrip(t: Table, name: string, value: int32)
    ensures ToIntOrZero(Lookup(t[name := Number(value)], name)) == value
  {
    NumberRoundTrip(value);
  }

  /** A bool stored with `setParameter(name, bool)` reads back by comparing the text with "1". */
  lemma BoolParameterRoundTrip(t: Table, name: string, value: bool)
    ensures (Lookup(t[name := BoolText(value)], name) == "1") == value
  {
  }

  // ---------------------------------------------------------------------------
  // ProtocolItem
  // ---------------------------------------------------------------------------

  class ProtocolItem {
    const itemName: string
    var parameters: Table

    /** The constructor body is not part of this model: it promises only the name,
        and nothing about the entries it may write into the table. */
    constructor (itemName: string)
      ensures this.itemName == itemName
    {
      this.itemName := itemName;
      parameters := map[];
    }

    /** `setParameter(name, QString)`. */
    method SetParameter(name: string, value: string)
      modifies this
      ensures parameters == old(parameters)[name := value]
      ensures AgreeExcept(parameters, old(parameters), name)
    {
      parameters := parameters[name := value];
    }

    /** `setParameter(name, bool)`. */
    method SetBoolParameter(name: string, value: bool)
      modifies this
      ensures parameters == old(parameters)[name := BoolText(value)]
      ensures AgreeExcept(parameters, old(parameters), name)
      ensures (parameters[name] == "1") == value
    {
      SetParameter(name, BoolText(value));
    }

    /** `setParameter(name, int)`. */
    method SetIntParameter(name: string, value: int32)
      modifies this
      ensures parameters == old(parameters)[name := Number(value)]
      ensures AgreeExcept(parameters, old(parameters), name)
      ensures ToInt(parameters[name]) == Some(value)
    {
      SetParameter(name, Number(value));
      NumberRoundTrip(value);
    }

    /** The non-const `parameters[name]` used by `extractParameters`. */
    method Parameter(name: string) returns (value: string)
      modifies this
      ensures value == Lookup(old(parameters), name)
      ensures parameters == Touch(old(parameters), name)
    {
      if name !in parameters {
        parameters := parameters[name := ""];
      }
      value := parameters[name];
    }
  }

  // ---------------------------------------------------------------------------
  // Commands
  // ---------------------------------------------------------------------------

  /** Whatever a caller stores in a `QVariant`; the command never looks inside it. */
  type Payload

  /** The `QVariant` a caller attaches to a command: null, or an opaque payload. */
  datatype Variant = Null | Value(payload: Payload)

  class Command {
    const item: ProtocolItem
    var ticks: int32
    var extraData: Variant

    /** The constructor body is not part of this model: the table it leaves is
        unconstrained. */
    constructor (itemName: string)
      ensures fresh(item) && item.itemName == itemName
      ensures ticks == 0 && extraData == Null
    {
      item := new ProtocolItem(itemName);
      ticks := 0;
      extraData := Null;
    }

    /** `getItemType`. */
    function ItemType(): (tag: string)
      ensures RoleFromTag(tag) == Some(CommandRole)
    {
      RoleTag(CommandRole)
    }

    /** `tick`: `++ticks`, returning the new count. Signed overflow is undefined in C++,
        so the caller must not tick past the largest int. */
    method Tick() returns (t: int32)
      requires ticks < 0x7fff_ffff
      modifies this`ticks
      ensures ticks as int == old(ticks) as int + 1
      ensures t == ticks && t > old(ticks)
    {
      ticks := ticks + 1;
      t := ticks;
    }

    /** `setExtraData`; the next `GetExtraData` returns `data`. */
    method SetExtraData(data: Variant)
      modifies this`extraData
      ensures extraData == data && GetExtraData() == data
    {
      extraData := data;
    }

    function GetExtraData(): Variant
      reads this
    {
      extraData
    }
  }

  class ChatCommand {
    const command: Command
    var channel: string
    /** The table the `Command` constructor left, before "channel" was written. */
    ghost const baseParameters: Table

    /** The typed channel and the table's "channel" entry agree. */
    ghost predicate Valid()
      reads this, command, command.item
    {
      "channel" in command.item.parameters && command.item.parameters["channel"] == channel
    }

    constructor (cmdName: string, channel: string)
      ensures Valid() && this.channel == channel && GetChannel() == channel
      ensures fresh(command) && fresh(command.item)
      ensures command.item.itemName == cmdName
      ensures command.item.parameters == baseParameters["channel" := channel]
    {
      var base := new Command(cmdName);
      command := base;
      this.channel := channel;
      baseParameters := base.item.parameters;
      new;
      command.item.SetParameter("channel", channel);
    }

    /** `getChannel`: on an item kept in step, the channel its table carries. */
    function GetChannel(): (c: string)
      reads this, command, command.item
      ensures Valid() ==> Lookup(command.item.parameters, "channel") == c
    {
      channel
    }

    /** `extractParameters`: the channel is read back from the table; a missing entry
        reads as the empty string and is inserted as such. */
    method ExtractParameters()
      modifies this, command.item
      ensures channel == Lookup(old(command.item.parameters), "channel")
      ensures GetChannel() == Lookup(old(command.item.parameters), "channel")
      ensures command.item.parameters == Touch(old(command.item.parameters), "channel")
      ensures Valid()
      ensures old(Valid()) ==> channel == old(channel) && command.item.parameters == old(command.item.parameters)
    {
      channel := command.item.Parameter("channel");
    }
  }

  class GameCommand {
    const command: Command
    var gameId: int32
    /** The table the `Command` constructor left, before "game_id" was written. */
    ghost const baseParameters: Table

    /** The table's "game_id" entry is the decimal text of the typed game id. */
    ghost predicate Valid()
      reads this, command, command.item
    {
      "game_id" in command.item.parameters && command.item.parameters["game_id"] == Number(gameId)
    }

    constructor (cmdName: string, gameId: int32)
      ensures Valid() && this.gameId == gameId && GetGameId() == gameId
      ensures fresh(command) && fresh(command.item)
      ensures command.item.itemName == cmdName
      ensures command.item.parameters == baseParameters["game_id" := Number(gameId)]
    {
      var base := new Command(cmdName);
      command := base;
      this.gameId := gameId;
      baseParameters := base.item.parameters;
      new;
      command.item.SetIntParameter("game_id", gameId);
    }

    /** `getGameId`: on an item kept in step, the id its table's text parses to. */
    function GetGameId(): (id: int32)
      reads this, command, command.item
      ensures Valid() ==> ToInt(Lookup(command.item.parameters, "game_id")) == Some(id)
    {
      NumberRoundTrip(gameId);
      gameId
    }

    /** `setGameId`: the field and its table entry change together; no other entry changes. */
    method SetGameId(gameId: int32)
      modifies this, command.item
      ensures Valid() && this.gameId == gameId && GetGameId() == gameId
      ensures command.item.parameters == old(command.item.parameters)["game_id" := Number(gameId)]
      ensures AgreeExcept(command.item.parameters, old(command.item.parameters), "game_id")
    {
      this.gameId := gameId;
      command.item.SetIntParameter("game_id", gameId);
    }

    /** `extractParameters`: the game id is `toInt()` of the table entry, so a missing or
        non-numeric entry yields 0. On a table kept in step by the constructor or
        `setGameId` it changes nothing. */
    method ExtractParameters()
      modifies this, command.item
      ensures gameId == ToIntOrZero(Lookup(old(command.item.parameters), "game_id"))
      ensures GetGameId() == ToIntOrZero(Lookup(old(command.item.parameters), "game_id"))
      ensures command.item.parameters == Touch(old(command.item.parameters), "game_id")
      ensures old(Valid()) ==> Valid() && gameId == old(gameId) && command.item.parameters == old(command.item.parameters)
    {
      var text := command.item.Parameter("game_id");
      gameId := ToIntOrZero(text);
      NumberRoundTrip(old(gameId));
    }
  }

  /** A table whose "game_id" entry is missing or not a number yields game id 0. */
  lemma GameIdDefaultsToZero(t: Table)
    requires "game_id" !in t || ToInt(t["game_id"]) == None
    ensures ToIntOrZero(Lookup(t, "game_id")) == 0
  {
  }

  /** After extracting from a table whose "game_id" entry is present but rejected by
      `toInt` (empty, a bare sign, trailing junk, out of range, ...), the typed id (0)
      and the table no longer agree: the text is not the decimal text of 0. */
  lemma NonNumericGameIdBreaksAgreement(t: Table)
    requires "game_id" in t && ToInt(t["game_id"]) == None
    ensures ToIntOrZero(Lookup(t, "game_id")) == 0
    ensures Lookup(t, "game_id") != Number(0)
  {
    NumberRoundTrip(0);
  }

  // ---------------------------------------------------------------------------
  // Events
  // ---------------------------------------------------------------------------

  class GameEvent {
    const item: ProtocolItem
    var gameId: int32
    var playerId: int32

    constructor (eventName: string, gameId: int32, playerId: int32)
      ensures fresh(item) && item.itemName == eventName
      ensures this.gameId == gameId && this.playerId == playerId
    {
      item := new ProtocolItem(eventName);
      this.gameId := gameId;
      this.playerId := playerId;
    }

    /** `getItemType`. */
    function ItemType(): (tag: string)
      ensures RoleFromTag(tag) == Some(GameEventRole)
    {
      RoleTag(GameEventRole)
    }

    /** `setGameId`: the field and its "game_id" entry change together. */
    method SetGameId(gameId: int32)
      modifies this, item
      ensures this.gameId == gameId && playerId == old(playerId)
      ensures item.parameters == old(item.parameters)["game_id" := Number(gameId)]
      ensures AgreeExcept(item.parameters, old(item.parameters), "game_id")
      ensures ToIntOrZero(item.parameters["game_id"]) == gameId
    {
      this.gameId := gameId;
      item.SetIntParameter("game_id", gameId);
      NumberRoundTrip(gameId);
    }
  }

  /** `ServerChatChannelInfo`. */
  datatype ServerChatChannelInfo = ServerChatChannelInfo(name: string, description: string, playerCount: int32, autoJoin: bool)

  /** `ServerChatUserInfo`. */
  datatype ServerChatUserInfo = ServerChatUserInfo(name: string)

  /** `ServerGameInfo`. */
  datatype ServerGameInfo = ServerGameInfo(
    gameId: int32, description: string, hasPassword: bool, playerCount: int32,
    maxPlayers: int32, creatorName: string, spectatorsAllowed: bool, spectatorCount: int32)

  class EventListChatChannels {
    const item: ProtocolItem
    var channelList: seq<ServerChatChannelInfo>

    constructor ()
      ensures fresh(item) && item.itemName == "list_chat_channels"
      ensures channelList == []
    {
      item := new ProtocolItem("list_chat_channels");
      channelList := [];
    }

    /** `getItemId`. */
    function Id(): (id: ItemId)
      ensures RoleOf(id) == GenericEventRole
    {
      EventListChatChannels
    }

    /** `addChannel`: the new record goes last; earlier records keep their order. */
    method AddChannel(name: string, description: string, playerCount: int32, autoJoin: bool)
      modifies this`channelList
      ensures |channelList| == |old(channelList)| + 1
      ensures channelList[..|old(channelList)|] == old(channelList)
      ensures channelList[|channelList| - 1] == ServerChatChannelInfo(name, description, playerCount, autoJoin)
    {
      channelList := channelList + [ServerChatChannelInfo(name, description, playerCount, autoJoin)];
    }
  }

  class EventChatListPlayers {
    const item: ProtocolItem
    var channel: string
    var playerList: seq<ServerChatUserInfo>

    constructor (channel: string)
      ensures fresh(item) && item.itemName == "chat_list_players"
      ensures this.channel == channel && playerList == []
    {
      item := new ProtocolItem("chat_list_players");
      this.channel := channel;
      playerList := [];
    }

    /** `getItemId`. */
    function Id(): (id: ItemId)
      ensures RoleOf(id) == ChatEventRole
    {
      EventChatListPlayers
    }

    /** `addPlayer`: the new record goes last; earlier records keep their order. */
    method AddPlayer(name: string)
      modifies this`playerList
      ensures |playerList| == |old(playerList)| + 1
      ensures playerList[..|old(playerList)|] == old(playerList)
      ensures playerList[|playerList| - 1] == ServerChatUserInfo(name)
    {
      playerList := playerList + [ServerChatUserInfo(name)];
    }
  }

  class EventListGames {
    const item: ProtocolItem
    var gameList: seq<ServerGameInfo>

    constructor ()
      ensures fresh(item) && item.itemName == "list_games"
      ensures gameList == []
    {
      item := new ProtocolItem("list_games");
      gameList := [];
    }

    /** `getItemId`. */
    function Id(): (id: ItemId)
      ensures RoleOf(id) == GenericEventRole
    {
      EventListGames
    }

    /** `addGame`: the new record goes last; earlier records keep their order. */
    method AddGame(gameId: int32, description: string, hasPassword: bool, playerCount: int32,
                   maxPlayers: int32, creatorName: string, spectatorsAllowed: bool, spectatorCount: int32)
      modifies this`gameList
      ensures |gameList| == |old(gameList)| + 1
      ensures gameList[..|old(gameList)|] == old(gameList)
      ensures gameList[|gameList| - 1] == ServerGameInfo(gameId, description, hasPassword, playerCount,
                                                         maxPlayers, creatorName, spectatorsAllowed, spectatorCount)
    {
      gameList := gameList + [ServerGameInfo(gameId, description, hasPassword, playerCount,
                                             maxPlayers, creatorName, spectatorsAllowed, spectatorCount)];
    }
  }
}
