# Cockatrice protocol items and the server test card, in Dafny

This project models two pieces of state logic from Cockatrice, a client/server card game.

- **Protocol items** (`common/protocol.h`). Every protocol item carries a string-to-string parameter table, `parameters`. Typed values go into the table as text: a bool becomes `"1"` or `"0"`, an int its decimal text. `ChatCommand`, `GameCommand` and `GameEvent` keep a typed field (channel, game id) in step with its table entry. `extractParameters` reads the typed field back from the table. A `Command` also carries a tick counter and an opaque extra-data slot. The list-bearing events append descriptor records in order. Every concrete item reports a role tag (`"cmd"`, `"resp"`, `"generic_event"`, `"game_event"`, `"chat_event"`) and an integer id: an enumerator of the `ItemId` enum, or `ItemId_Other` for `InvalidCommand` and `ProtocolResponse`.
- **The server-side card** (`servatrice/src/testcard.cpp`). A `TestCard` holds an id, a name, coordinates, a counter count, four flags (tapped, attacking, facedown, doesn't-untap) and an annotation. `resetState` returns it to a fixed baseline. `setAttribute` validates one attribute by name and updates it.

Files:

- `qtstring.dfy` (module `QtString`) models the Qt primitives the code relies on. `QString::number(int)` becomes `Number`. `QString::toInt` becomes `ToInt` (with the `ok` flag) and `ToIntOrZero` (without it). The C++ `int` is the newtype `int32`.
- `protocol.dfy` (module `Protocol`) models the parameter table, `ProtocolItem`, `Command`, `ChatCommand`, `GameCommand`, `GameEvent`, the three list-bearing events, the item ids and the role tags. C++ inheritance becomes composition. A `ProtocolItem` object owns the table. A `Command` holds its `ProtocolItem` part as `item`. `ChatCommand` and `GameCommand` hold their `Command` part as `command`. The events hold their `ProtocolItem` part as `item`.
- `testcard.dfy` (module `TestCards`) models the `TestCard` class. The pure function `ApplyAttribute` specifies `setAttribute` on a `CardState` value, and `Reset` specifies `resetState`. The methods are proved against these functions.

Two points about the code that the model keeps as written:

- `GameCommand::extractParameters` (common/protocol.h:125) calls `toInt()` without an `ok` flag, so a missing or non-numeric `game_id` becomes 0, and the model keeps that behaviour. `GameCommand.ExtractParameters`, `GameIdDefaultsToZero` and `NonNumericGameIdBreaksAgreement` state it.
- The table is a `QMap` (common/protocol.h:43), ordered by key. The model's `map` has no order, which matters only to `write`, which is left out.

## Model

| member | source | states |
|---|---|---|
| `QtString.NatDigits` | common/protocol.h:46 | The decimal text of a natural number is non-empty, made only of digits, and has no leading zero unless the number is 0. |
| `QtString.Number` | common/protocol.h:46 | `QString::number(int)` gives a non-empty text. It starts with `-` exactly when the int is negative, and every other character is a digit. |
| `QtString.DigitsValueOfNatDigits` | common/protocol.h:46 | Reading back the digits that `NatDigits` produces gives the original natural number. |
| `QtString.NumberRoundTrip` | common/protocol.h:122-126 | Parsing `QString::number(i)` with `toInt` gives back `i` for every 32-bit int, with or without the `ok` flag. |
| `QtString.NumberInjective` | common/protocol.h:46 | Two ints with the same decimal text are equal. |
| `QtString.ToIntRejectsNonDigit` | servatrice/src/testcard.cpp:45-50 | `toInt` rejects any text with a character that is neither a digit nor the leading sign. Without the `ok` flag such text reads as 0. |
| `QtString.ToIntRejectsNoDigits` | servatrice/src/testcard.cpp:45-50 | `toInt` rejects the empty text and a bare sign. |
| `QtString.ToInt` | servatrice/src/testcard.cpp:47 | `QString::toInt(&ok)`: whatever it accepts is an optional sign followed by one or more ASCII digits. |
| `QtString.ToIntOrZeroOnDigits` | common/protocol.h:125 | `QString::toInt()` without `ok`, on a run of digits `d`: `d` reads as its value when that is at most 2147483647 and as 0 otherwise; `-d` reads as minus its value when the magnitude is at most 2147483648 and as 0 otherwise. |
| `QtString.ToIntOnDigits` | servatrice/src/testcard.cpp:45-50 | For every non-empty digit string `d`: `d` and `+d` are accepted exactly when their value is at most 2147483647, and `-d` exactly when its magnitude is at most 2147483648. The accepted value is the value of the digits, negated under `-`. |
| `QtString.ToIntRejectsOverflow` | servatrice/src/testcard.cpp:45-50 | A concrete instance of `ToIntOnDigits`: `toInt` accepts 2147483647 and rejects 2147483648. |
| `Protocol.ItemIdFromValue` | common/protocol.h:19-32 | Recognising an integer as an `ItemId` enumerator only succeeds with the enumerator whose value it is. |
| `Protocol.ItemIdRoundTrip` | common/protocol.h:19-32 | Every enumerator's value is recognised as that enumerator, whatever the value of `ItemId_Other`. |
| `Protocol.ItemIdsDistinct` | common/protocol.h:19-32 | The enumerators have pairwise distinct values, and none equals `ItemId_Other`, the id of `InvalidCommand` and `ProtocolResponse`. |
| `Protocol.RoleFromTag` | common/protocol.h:80 | Recognising a role tag only succeeds with the role that reports that tag. |
| `Protocol.RoleTagRoundTrip` | common/protocol.h:80-282 | The five role tags that `getItemType` returns at lines 80 (`"cmd"`), 188 (`"resp"`), 253 (`"generic_event"`), 264 (`"game_event"`) and 282 (`"chat_event"`) are pairwise distinct: each is recognised as its own role. |
| `Protocol.RoleOf` | common/protocol.h:141-408 | Each concrete item's role is that of its base class (`Command`, `ProtocolResponse`, `GenericEvent`, `ChatEvent` or `GameEvent`). With the enum of lines 19-32, an item is a command exactly when its enumerator is in the 100s, an event exactly in the 200s, and a response exactly in the 300s. |
| `Protocol.LookupAfterWrite` | common/protocol.h:44-46 | Reading a key just written with `parameters[name] = value` gives the written text, and a write leaves the text read under every other key unchanged. |
| `Protocol.Touch` | common/protocol.h:103-107 | The non-const `parameters[key]` makes `key` present with its old text (or `""`), and keeps every other entry unchanged. |
| `Protocol.BoolText` | common/protocol.h:45 | A bool is stored as `"1"` or `"0"`, and comparing the text with `"1"` recovers the bool. |
| `Protocol.IntParameterRoundTrip` | common/protocol.h:122-126 | An int written to any table entry reads back unchanged through `toInt()`. |
| `Protocol.BoolParameterRoundTrip` | common/protocol.h:45 | A bool written to any table entry reads back by comparing the text with `"1"`. |
| `Protocol.ProtocolItem.SetParameter` | common/protocol.h:44 | `setParameter(name, QString)` stores the text under `name`. Every other key and value is unchanged. |
| `Protocol.ProtocolItem.SetBoolParameter` | common/protocol.h:45 | `setParameter(name, bool)` stores `"1"` or `"0"` under `name`. The stored text equals `"1"` exactly when the bool is true. Every other entry is unchanged. |
| `Protocol.ProtocolItem.SetIntParameter` | common/protocol.h:46 | `setParameter(name, int)` stores the decimal text under `name`, and `toInt` of that text is the int. Every other entry is unchanged. |
| `Protocol.ProtocolItem.Parameter` | common/protocol.h:122-126 | The non-const `parameters[name]` returns the stored text or `""`, and inserts a missing key with `""`. |
| `Protocol.Command.ItemType` | common/protocol.h:80 | A command reports the tag `"cmd"`, which is recognised as the command role. |
| `Protocol.Command.Tick` | common/protocol.h:85 | `tick` raises `ticks` by exactly one and returns the new value, which is larger than before. Successive calls therefore return strictly increasing values. |
| `Protocol.Command.SetExtraData` | common/protocol.h:87-88 | After `setExtraData(d)`, `getExtraData` returns `d`. |
| `Protocol.ChatCommand.constructor` | common/protocol.h:109-113 | A new chat command has the given channel, and `getChannel` returns it. Its table is the table the `Command` constructor left, with `"channel"` set to the channel. The field/table invariant holds. |
| `Protocol.ChatCommand.GetChannel` | common/protocol.h:114 | `getChannel` returns the channel; on an item whose field and table are in step, that is the table's `"channel"` text. |
| `Protocol.ChatCommand.ExtractParameters` | common/protocol.h:103-107 | The channel, and so what `getChannel` returns, becomes the table's `"channel"` text, or `""` if missing, and a missing key is inserted as `""`. Afterwards the field/table invariant holds. On a table already in step, nothing changes. |
| `Protocol.GameCommand.constructor` | common/protocol.h:128-132 | A new game command has the given game id, and `getGameId` returns it. Its table is the table the `Command` constructor left, with `"game_id"` set to the decimal text of the id. The field/table invariant holds. |
| `Protocol.GameCommand.GetGameId` | common/protocol.h:133 | `getGameId` returns the game id; on an item whose field and table are in step, `toInt` of the table's `"game_id"` text accepts and gives that id. |
| `Protocol.GameCommand.SetGameId` | common/protocol.h:134-138 | `setGameId` sets the field and its `"game_id"` entry together and keeps the invariant; `getGameId` then returns the new id. No other entry changes. |
| `Protocol.GameCommand.ExtractParameters` | common/protocol.h:122-126 | The game id, and so what `getGameId` returns, becomes `toInt()` of the `"game_id"` text, so a missing or non-numeric entry gives 0. On a table written by the constructor or `setGameId`, the id and table are unchanged. |
| `Protocol.GameIdDefaultsToZero` | common/protocol.h:125 | A table whose `"game_id"` is missing or rejected by `toInt` yields game id 0. |
| `Protocol.NonNumericGameIdBreaksAgreement` | common/protocol.h:125 | Extracting from any present `"game_id"` text that `toInt` rejects (empty, a bare sign, trailing junk such as `"12abc"`, out of range) yields 0, and the table's text is then not the decimal text of 0. The field and table disagree after extraction. |
| `Protocol.GameEvent.ItemType` | common/protocol.h:264 | A game event reports the tag `"game_event"`, which is recognised as the game-event role. |
| `Protocol.GameEvent.SetGameId` | common/protocol.h:270-274 | `setGameId` on a game event sets the field and its `"game_id"` entry together, and the entry reads back as the id. The player id and every other entry are unchanged. |
| `Protocol.EventListChatChannels.constructor` | common/protocol.h:294 | A new channel-list event is named `"list_chat_channels"` and its channel list is empty. |
| `Protocol.EventListChatChannels.Id` | common/protocol.h:295 | The event reports the `Event_ListChatChannels` id, whose role is the generic-event role of its base class. |
| `Protocol.EventListChatChannels.AddChannel` | common/protocol.h:297-300 | `addChannel` grows the list by one. The record built from the arguments is last, and all earlier records are unchanged and in the same order. |
| `Protocol.EventChatListPlayers.constructor` | common/protocol.h:312 | A new player-list event is named `"chat_list_players"`, keeps the given channel, and its player list is empty. |
| `Protocol.EventChatListPlayers.Id` | common/protocol.h:313 | The event reports the `Event_ChatListPlayers` id, whose role is the chat-event role of its base class. |
| `Protocol.EventChatListPlayers.AddPlayer` | common/protocol.h:315-318 | `addPlayer` grows the list by one. The new player record is last, and earlier records are unchanged and in order. |
| `Protocol.EventListGames.constructor` | common/protocol.h:330 | A new game-list event is named `"list_games"` and its game list is empty. |
| `Protocol.EventListGames.Id` | common/protocol.h:331 | The event reports the `Event_ListGames` id, whose role is the generic-event role of its base class. |
| `Protocol.EventListGames.AddGame` | common/protocol.h:333-336 | `addGame` grows the list by one. The record built from the eight arguments is last, and earlier records are unchanged and in order. |
| `TestCards.AttributeNamed` | servatrice/src/testcard.cpp:43-64 | An attribute name is recognised only as the attribute that carries exactly that name. |
| `TestCards.AttributeNameRoundTrip` | servatrice/src/testcard.cpp:43-64 | Each of the six attribute names is recognised as its own attribute. |
| `TestCards.Reset` | servatrice/src/testcard.cpp:32-41 | The reset state is at the baseline and keeps the id and name: coords (0,0), counters 0, all four flags false, annotation empty. It is the only such state. |
| `TestCards.ResetIdempotent` | servatrice/src/testcard.cpp:32-41 | Resetting twice is the same as resetting once. |
| `TestCards.NewCardIsResetApartFromPosition` | servatrice/src/testcard.cpp:22-25 | A new card differs from the reset baseline only in its coordinates. |
| `TestCards.ApplyAttribute` | servatrice/src/testcard.cpp:43-67 | `setAttribute` semantics, stated attribute by attribute. An unknown name is refused. A refused call changes nothing, and an accepted call changes only the named attribute. `counters` is accepted exactly when the text is a valid int, which becomes the count. `tapped` is always accepted: the card ends tapped iff the value is `"1"`, or it was tapped and a bulk untap is blocked by `doesnt_untap`. The other flags are set exactly when the value is `"1"`. `annotation` is stored verbatim. |
| `TestCards.SetAttributeIdempotent` | servatrice/src/testcard.cpp:43-67 | Repeating a `setAttribute` call gives the same state and the same result. |
| `TestCards.BulkUntapRefused` | servatrice/src/testcard.cpp:51-54 | Untapping all cards leaves a `doesnt_untap` card tapped as it was, and the call still returns true. |
| `TestCards.TestCard.constructor` | servatrice/src/testcard.cpp:22-25 | A new card has the given id, name and coordinates. Counters are 0, all four flags are false, and the annotation is empty. |
| `TestCards.TestCard.ResetState` | servatrice/src/testcard.cpp:32-41 | `resetState` moves the card to `Reset` of its old state, leaving id and name untouched. |
| `TestCards.TestCard.SetAttribute` | servatrice/src/testcard.cpp:43-67 | `setAttribute` leaves the card in the state `ApplyAttribute` gives for the old state and returns its verdict. |

## Left out

- Serialization is not modelled: `ProtocolItem::read`/`write`, `readElement`/`writeElement` and all XML stream handling. Their bodies are not part of this model, and they are stream I/O.
- The item registry (`itemNameHash`, `getNewItem`, `initializeHash`) is not modelled. Its bodies and registration order are not part of this model.
- The command id (`cmdId`, `lastCmdId`) is not modelled, because the `Command` constructor body that assigns it is not part of this model.
- The `finished` signals and `processResponse` are not modelled: they are observer plumbing whose bodies are not part of this model.
- `setParameter(name, QColor)` is not modelled, because `ColorConverter` is not part of this model.
- The payload-bearing items (`Command_DeckUpload`, `Command_DeckSelect`, `ProtocolResponse` and its deck responses, `Event_GameStateChanged`, `Event_CreateArrow`, `Event_CreateCounter`, `Event_DrawCards`) are not modelled. Their payloads and ownership are opaque here. They appear only through their `ItemId` enumerators and roles.
- `Command::extractParameters`, `GameEvent::extractParameters` and `ChatEvent::extractParameters` are declared but their bodies are not part of this model. `ChatCommand.ExtractParameters` and `GameCommand.ExtractParameters` model only the lines shown, and not the call to the `Command` base.
- Several constructor bodies live in a file that is not part of this model: `ProtocolItem`, `Command`, `GenericEvent`, `ChatEvent` and `GameEvent`. Each is modelled as storing its arguments. The model promises nothing about the entries they write into the parameter table (for example a command id or the game and player ids). A new `Command` is assumed to start with 0 ticks and null extra data.
- `GenericEvent` and `ChatEvent` have no class of their own. The list events hold their `ProtocolItem` part directly.
- `Command.Tick`: requires `ticks` below the largest 32-bit int, because signed overflow of `++ticks` is undefined in C++.
- `QVariant` is modelled as `Variant`: null, or a `Payload` of an abstract type the command never inspects. Its conversions are not modelled.
- `QtString.ToInt`: `QString::toInt` is modelled as an optional `+`/`-` sign and one or more ASCII digits within the 32-bit range. Surrounding whitespace and locale handling are not modelled.
- The value of `ItemId_Other` is not part of this model. Enumerator values are stated relative to it.
- The `TestCard` setters are modelled as plain field assignments, because their header is not part of this model. The destructor is not modelled.
- Aliasing between items is not modelled. Each item owns its freshly allocated base parts.
