# rustotool pig game, modelled in Dafny

rustotool is a Telegram bot. Its core is a pig-raising game. Players create a pig
with `/pig`. They feed it with `/grow` (or with the older `/feed`), and each feeding
draws a random growth from a window that depends on the pig's weight and its rank
in the chat. `/my`, `/pigstats` and `/top` show pig cards and the chat's ranking,
and `/name` renames a pig. Inline buttons under the cards (`grow:<user>`,
`remove:<message>`, `back:<user>`) repeat a feeding, delete a card or bring it back.

Around the game sits a module registry. `main` registers three modules: the pig
game, a "powerful nahruk" module that answers messages containing trigger words,
and a reactions module that now and then puts an emoji on a message. Text
beginning with `/` is split into a command word and arguments. `/help` is answered
with the registry's command listing. Any other command goes to the first module
that declares it, and messages no module handles are offered to each module in
turn until one takes them.

This project models that core and proves what it promises:

- `schema.dfy` holds the `pigs` and `loot` rows.
- `table.dfy` is the database as a value. It holds both tables, the next serial
  ids and a fault schedule, and it gives every query of `src/database.rs` as a
  function from the store before the call to the store after it and the result.
  `ranking.dfy` is the `ORDER BY weight DESC` sort. `ilike.dfy` is SQL
  `LIKE`/`ILIKE`.
- `database.dfy` is the `Database` class, whose methods change the tables in place
  and are proved equal to those functions.
- `helpers.dfy` holds the growth window `calculate_grow_range`, the default names
  and the new-pig record. `feeding.dfy` is `feed_pig`: draw, floor at 1, save, report.
- `commands.dfy` is `handle_pig_command` (`/pig`, `/grow`, `/my`, `/pigstats`,
  `/top`, `/name`).
- `legacy.dfy` is the older module body in `src/modules/pig_game/mod.rs`. It
  covers `/pig`, `/feed`, `/mypig` and `/pigstats`, a fixed +5 feeding and a
  starting weight of 10.
- `keyboards.dfy` and `callbacks.dfy` model the inline buttons.
- `nahruk.dfy` and `reactions.dfy` are the two text modules.
- `router.dfy` is `ModuleManager`, a class over the registry map.
- `entry.dfy` is the message endpoint of `src/main.rs`.
- `messages.dfy` renders every reply. `transport.dfy` holds the effects sent to
  Telegram. `text.dfy` holds integer formatting and parsing, `starts_with`,
  `contains` and `join`.
- `*_facts.dfy` files hold the cross-cutting lemmas.

The repository's tree is between two versions of the game, and the model keeps
both where they differ:

- `src/modules/pig_game/helpers.rs` and `commands.rs` define a pig starting at
  weight 0 (`Helpers.NewPig`) and a ranked random feeding (`Feeding.FeedOp`).
- `src/modules/pig_game/mod.rs` defines a pig starting at weight 10
  (`LegacyPigGame.StarterPig`) and a fixed +5 feeding (`LegacyPigGame.FeedFixedOp`).

The registry only ever sees `mod.rs`'s `commands()`, which lists `pig`, `feed`,
`mypig` and `pigstats`. Through the registry, commands therefore reach only the
`mod.rs` handler (`RouterFacts.RoutesToPigGame`). `/grow`, `/my`, `/top` and
`/name` are declared by no module and fall through to free-text dispatch
(`RouterFacts.NewerCommandsUnrouted`). The newer handler and the buttons are
modelled as written and proved on their own.

Effects on Telegram (send, reply, edit, delete, answer, react) are recorded as a
list of `Transport.Effect` values and never fail. Each store call consumes one entry
of the fault schedule, so every database error path is modelled. The clock, the
random draws, the bot's own chat membership, the grapheme count and the registry's
`HashMap` visiting order are parameters.

## Model

| member | source | states |
|---|---|---|
| Table.Tick | src/database.rs:97-108 | a store call leaves both tables and both serial counters as they were, whether it fails or not |
| Table.KeyIndex | src/database.rs:97-108 | the position found holds the key (chat, user), and no earlier row does; None exactly when no row has the key |
| Table.Lookup | src/database.rs:97-108 | `get_pig` returns a stored row with the key, and returns none exactly when no stored row has the key |
| Table.ChatPigs | src/database.rs:60-70 | a row is selected exactly when it is stored and belongs to the chat |
| Table.Ranked | src/database.rs:60-70 | `get_chat_pigs_ranked` is non-increasing in weight, a permutation of the chat's rows, and as long as the chat's row count |
| Ranking.InsertByWeight | src/database.rs:60-70 | inserting one row adds exactly that row to the multiset |
| Ranking.InsertKeepsOrder | src/database.rs:60-70 | inserting into a heaviest-first list keeps it heaviest-first |
| Ranking.SortByWeight | src/database.rs:60-70 | `ORDER BY weight DESC` gives a non-increasing permutation of its input |
| Table.UserIndex | src/database.rs:83-96 | the position found holds a row of the user; None exactly when the user has no row in the ranking |
| Table.RankOf | src/database.rs:83-96 | `get_pig_rank` is some exactly when the user has a pig in the chat; it then lies in [1, chat count] and the ranking's row at rank-1 is the user's |
| Table.RankedRows | src/database.rs:60-70 | a row is in the ranking exactly when it is stored in that chat |
| Table.RankedHasUser | src/database.rs:83-96 | a user appears in the chat's ranking exactly when they have a pig there |
| Table.RankPosition | src/database.rs:83-96 | the row at rank-1 is the user's pig; every row before it is at least as heavy and every row after it at most as heavy |
| Table.RankedRowIsUsers | src/database.rs:83-96 | with unique keys, the ranked row at the user's rank is exactly their stored pig |
| Table.SearchByName | src/database.rs:221-237 | `find_pig_by_name` returns exactly the chat's rows whose name is ILIKE `%name%` |
| Table.OwnedLoot | src/database.rs:182-196 | `get_user_loot` returns exactly the loot rows of that chat and owner |
| Table.LookupAtIndex | src/database.rs:97-108 | with unique keys, looking up any stored row's key finds that row |
| Table.StoredRowIsFound | src/database.rs:97-108 | with unique keys, every stored row is what `get_pig` returns for its key |
| Table.CreateThenLookup | src/database.rs:110-143 | a successful `create_pig` appends exactly the draft under the next id, finds it at its key and adds one to the chat count; a failed one leaves the rows; with the store up it fails exactly when the key is taken; keys stay unique |
| Table.ChatPigsAppend | src/database.rs:110-143 | a created row is appended to the end of its chat's rows |
| Table.OwnedAppend | src/database.rs:181-195 | an appended loot row joins the end of its owner's loot list and no other owner's |
| Table.AddThenOwned | src/database.rs:181-219 | a successful `add_loot` returns the draft under the next id; `get_user_loot` for that owner then gives the old list plus that row, every other owner's list is unchanged and the pigs are untouched |
| Table.UpdateOverwrites | src/database.rs:145-179 | a successful `update_pig` replaces the keyed row by the given pig with the row's own id, and leaves every other row and the row count alone; it fails with RowNotFound exactly when no row has the key |
| Table.UpdateKeepsWellFormed | src/database.rs:145-179 | an update with a non-negative weight keeps keys unique and weights non-negative |
| Table.CreateKeepsWellFormed | src/database.rs:110-143 | a create with a non-negative weight keeps keys unique and weights non-negative |
| Table.RenameKeepsWellFormed | src/modules/pig_game/commands.rs:236-250 | renaming changes only the name of the keyed row; other rows, keys, loot and counters stay the same |
| Ilike.LowerStrIdempotent | src/database.rs:221-237 | lower-casing an already lower-cased text changes nothing |
| Ilike.ILikeIgnoresCase | src/database.rs:221-237 | `ILIKE` gives the same answer whatever the case of the pattern and the text |
| Ilike.PercentMatchesAll | src/database.rs:226 | `%` matches every string |
| Ilike.PrefixPattern | src/database.rs:226 | for a text without wildcards, `q%` matches exactly the strings beginning with q |
| Ilike.LeadingPercent | src/database.rs:226 | a leading `%` matches when the rest of the pattern matches some suffix |
| Ilike.SubstringPattern | src/database.rs:226-231 | for a text without wildcards, `%q%` is exactly a substring test |
| Ilike.NameSearchIsSubstring | src/database.rs:226-231 | for a text without wildcards, the name search is a case-insensitive substring test |
| Ilike.UnderscoreMatchesAnyNonEmpty | src/database.rs:226-231 | searching for `_` finds exactly the non-empty names: it acts as a wildcard |
| Db.Database.constructor | src/database.rs:47-55 | a fresh database has empty tables and serial counters at 1 |
| Db.Database.Consume | src/database.rs:97-108 | a call fails exactly when the schedule says so, and consumes one entry |
| Db.Database.FindRow | src/database.rs:97-108 | the scan finds the first row with the key, or none |
| Db.Database.GetPig | src/database.rs:97-108 | the new state and result are those of `GetPigOp` |
| Db.Database.GetChatTotalPlayers | src/database.rs:72-81 | the new state and result are those of `TotalPlayersOp` (the chat's row count) |
| Db.Database.GetPigRank | src/database.rs:83-96 | the new state and result are those of `RankOp` |
| Db.Database.GetChatPigsRanked | src/database.rs:60-70 | the new state and result are those of `RankedOp` |
| Db.Database.FindPigByName | src/database.rs:221-237 | the new state and result are those of `FindPigByNameOp` |
| Db.Database.GetUserLoot | src/database.rs:182-196 | the new state and result are those of `UserLootOp` |
| Db.Database.CreatePig | src/database.rs:110-143 | the new tables and result are those of `CreatePigOp`; the store stays well-formed |
| Db.Database.UpdatePig | src/database.rs:145-179 | the updated row in place and the result are those of `UpdatePigOp`; the store stays well-formed |
| Db.Database.UpdatePigName | src/modules/pig_game/commands.rs:238 | the renamed row in place and the result are those of `UpdatePigNameOp`; the store stays well-formed |
| Db.Database.AddLoot | src/database.rs:198-219 | the appended loot row and the result are those of `AddLootOp` |
| Helpers.PercentageInUnit | src/modules/pig_game/helpers.rs:12-15 | for 1 <= rank <= total, the rank percentage lies in (0, 1] and the gain divisor is non-zero |
| Helpers.GrowRangeBounds | src/modules/pig_game/helpers.rs:12-20 | with a non-negative score and tunables and a ranked player, the minimum is at most -15 and the maximum at least 35, so the window is never empty |
| Helpers.LastPlaceRange | src/modules/pig_game/helpers.rs:12-20 | in last place (rank == total) the loss term vanishes: the window is (-15, floor(2 * weight_factor * score) + 35) |
| Helpers.LonePigDefaultRange | src/modules/pig_game/helpers.rs:6-21 | a lone pig of score 10 under the default tuning draws from (-15, 45) |
| Helpers.PercentageMonotone | src/modules/pig_game/helpers.rs:12 | a lower place (larger rank) has a larger rank percentage |
| Helpers.LossTermAntitone | src/modules/pig_game/helpers.rs:14-17 | the loss term shrinks as the rank percentage grows |
| Helpers.GainTermMonotone | src/modules/pig_game/helpers.rs:15-18 | the gain term grows as the rank percentage grows |
| Helpers.MaxLossAntitone | src/modules/pig_game/helpers.rs:14-17 | a lower-placed pig risks no more loss |
| Helpers.MaxGainMonotone | src/modules/pig_game/helpers.rs:15-18 | a lower-placed pig may gain no less |
| Helpers.CatchUp | src/modules/pig_game/helpers.rs:6-21 | both ends of the window move up (or stay) as the rank number grows: the catch-up policy |
| Helpers.DefaultPigName | src/modules/pig_game/helpers.rs:23-40 | the default name is one of the ten listed names, and is non-empty |
| Helpers.NewPig | src/modules/pig_game/helpers.rs:42-76 | the new record has weight and last weight 0, every counter and time at 0, is not poisoned, has no avatar, and carries the given chat, user, owner and name |
| Feeding.SampleGrowth | src/modules/pig_game/commands.rs:318-324 | the sampled growth lies in [min, max] |
| Feeding.SampleReachesEvery | src/modules/pig_game/commands.rs:318-324 | every growth in [min, max] is drawn by some random value |
| Feeding.Window | src/modules/pig_game/commands.rs:313-316 | the window for a stored pig reaches at least 15 down and 35 up |
| Feeding.StandingOf | src/modules/pig_game/commands.rs:313-315 | a stored pig has a rank in [1, chat count], so the `unwrap_or(1)` fallback is never used, and a non-negative score |
| Feeding.DrawGrowth | src/modules/pig_game/commands.rs:315-324 | the drawn growth lies within `calculate_grow_range` of the pig's weight, rank and chat size |
| Feeding.FeedDraws | src/modules/pig_game/commands.rs:311-328 | with both reads answered, feeding saves the pig grown by the sampled growth; if either read fails, only `last_feed` has moved and no table changes |
| Feeding.SaveGrowthEffect | src/modules/pig_game/commands.rs:326-340 | saving sets the weight to max(weight + g, 1), rewrites only the pig's own row, keeps the store well-formed, reports g and the new weight, and fails exactly when the store does |
| Feeding.FeedTouchesWeightAndClock | src/modules/pig_game/commands.rs:311-326 | feeding changes the held pig's weight and `last_feed` and nothing else; `last_weight` is not snapshotted |
| Feeding.FeedWeight | src/modules/pig_game/commands.rs:318-340 | after a successful feeding the weight is max(old + g, 1) >= 1 for the sampled g, within [max(old + min, 1), max(old + max, 1)]; the stored row is that pig, and the report names g and the new weight |
| Feeding.FeedFailure | src/modules/pig_game/commands.rs:313-328 | a feeding fails only with an unavailable store, and then no table changes |
| Feeding.FeedSucceeds | src/modules/pig_game/commands.rs:313-328 | with the next three store calls answered, feeding succeeds |
| Feeding.FeedKeepsOthers | src/modules/pig_game/commands.rs:326-328 | feeding rewrites only the pig's own row: other rows, keys, the row count, loot and counters stay the same |
| Feeding.SaveGrowthTo | src/modules/pig_game/commands.rs:326-340 | the held pig and the store after saving are those of `SaveGrowth` |
| Feeding.FeedPig | src/modules/pig_game/commands.rs:305-341 | the fed pig, the store and the result are those of `FeedOp` |
| Messages.TopLines | src/modules/pig_game/commands.rs:199-213 | one line per listed pig |
| Messages.TopLineAt | src/modules/pig_game/commands.rs:199-213 | line i shows place i+1 with 🥇, 🥈, 🥉 on the first three lines and 🏅 after, then the pig's name, weight and owner |
| Messages.GrowthWords | src/modules/pig_game/commands.rs:330-336 | the growth text has three cases: gained for g > 0, lost for g < 0, and the fixed text for 0 |
| Messages.GrowthTextInjective | src/modules/pig_game/commands.rs:330-336 | different growths give different texts: positive shows g and negative shows -g |
| Text.ContainsAt | src/modules/powerful_nahruk/mod.rs:17 | the `contains` scan holds exactly when the word occurs at some offset |
| Text.DigitChar | src/modules/pig_game/keyboards.rs:7 | a digit value renders as a decimal digit character |
| Text.Decimal | src/modules/pig_game/keyboards.rs:7 | a rendering has at least one character, all digits |
| Text.DecimalValue | src/modules/pig_game/keyboards.rs:7 | the digits rendered for n read back as n |
| Text.ParseInt | src/modules/pig_game/callbacks.rs:24 | a parse result lies within the type's range |
| Text.ParseFormat | src/modules/pig_game/callbacks.rs:24 | parsing a formatted in-range number gives the number back |
| Text.FormatIntInjective | src/modules/pig_game/keyboards.rs:7 | different numbers render differently |
| Text.FormatNonNegativeIsDigits | src/modules/pig_game/keyboards.rs:10 | a non-negative number renders as digits without a sign |
| CallbackFacts.PigKeyboardRoundTrip | src/modules/pig_game/keyboards.rs:4-14 | the card's first button reads back as the grow button for that user, the second as the remove button for that command message |
| CallbackFacts.GrowKeyboardRoundTrip | src/modules/pig_game/keyboards.rs:16-22 | the button under a feeding result reads back as the back button for that user |
| CallbackFacts.OwnerCheck | src/modules/pig_game/callbacks.rs:26-31 | somebody else's grow or back button changes no table and only answers "not yours", with no pig read and no feed |
| CallbackFacts.AnsweredUnlessGated | src/modules/pig_game/callbacks.rs:17-143 | every press ends with the plain acknowledgement exactly when it is not stopped by the owner check |
| CallbackFacts.PressGrow | src/modules/pig_game/callbacks.rs:23-65 | the owner's grow button runs the feeding branch and then acknowledges |
| CallbackFacts.PressBack | src/modules/pig_game/callbacks.rs:99-132 | the owner's back button runs the card branch and then acknowledges |
| CallbackFacts.GrowButtonOwnRow | src/modules/pig_game/callbacks.rs:33-43 | the grow button touches at most the presser's row and keeps the store well-formed |
| CallbackFacts.BackButtonReadOnly | src/modules/pig_game/callbacks.rs:108-119 | the back button changes no table |
| CallbackFacts.ButtonTouchesOnlyOwnRow | src/modules/pig_game/callbacks.rs:10-145 | any press touches at most the presser's row and keeps the store well-formed |
| CallbackFacts.RemoveButtonDeletes | src/modules/pig_game/callbacks.rs:67-97 | remove always deletes the card and deletes the command message too exactly when the bot owns or administers the chat and the id parses as i32; no table changes |
| CallbackFacts.GrowButtonReport | src/modules/pig_game/callbacks.rs:33-43 | with the store answering, the grow button feeds the stored pig once, stores the grown pig and replaces the card by the report with the back keyboard |
| CallbackFacts.GrowButtonFeeds | src/modules/pig_game/callbacks.rs:23-65 | a full press of one's own grow button feeds once, edits the message and acknowledges |
| CallbackFacts.BackButtonCard | src/modules/pig_game/callbacks.rs:108-118 | with the store answering, the back button re-renders the pig's card with its rank and the pig keyboard |
| CallbackFacts.BackButtonShowsCard | src/modules/pig_game/callbacks.rs:99-132 | a full press of one's own back button shows the card in place, whose buttons again read back as grow and remove for the same user and message, then acknowledges |
| Callbacks.GrowButtonPress | src/modules/pig_game/callbacks.rs:33-64 | the new store and the effects are those of `GrowButtonOp` |
| Callbacks.BackButtonPress | src/modules/pig_game/callbacks.rs:108-131 | the new store and the effects are those of `BackButtonOp` |
| Callbacks.HandleCallbackQuery | src/modules/pig_game/callbacks.rs:10-145 | the new store and the effects are those of `CallbackOp` |
| Commands.PigCommand | src/modules/pig_game/commands.rs:31-76 | the new store and the effects are those of `PigOp` |
| Commands.FeedReply | src/modules/pig_game/commands.rs:86-95 | the new store and the effects are those of `FeedReplyOp` |
| Commands.GrowCommand | src/modules/pig_game/commands.rs:78-122 | the new store and the effects are those of `GrowOp` |
| Commands.CreateAndFeed | src/modules/pig_game/commands.rs:96-116 | the new store and the effects are those of `CreateAndFeedOp` |
| Commands.FormatPigInfo | src/modules/pig_game/commands.rs:286-302 | the new store and the text are those of `FormatPigInfoOp`; a missing or failed rank shows 0 |
| Commands.MyCommand | src/modules/pig_game/commands.rs:124-142 | the new store and the effects are those of `MyOp` |
| Commands.PigStatsCommand | src/modules/pig_game/commands.rs:144-191 | the new store and the effects are those of `PigStatsOp` |
| Commands.TopCommand | src/modules/pig_game/commands.rs:193-224 | the new store and the effects are those of `TopOp` |
| Commands.NameCommand | src/modules/pig_game/commands.rs:226-275 | the new store and the effects are those of `NameOp` |
| Commands.HandlePigCommand | src/modules/pig_game/commands.rs:12-284 | the new store and the effects are those of `PigCommandOp` |
| CommandFacts.CreateOwnRow | src/modules/pig_game/helpers.rs:42-76 | creating a pig touches at most its own key's row and keeps the store well-formed |
| CommandFacts.FeedOwnRow | src/modules/pig_game/commands.rs:86-95 | feeding and replying touches only the fed pig's row, keeps the keys, and sends one message to the chat |
| CommandFacts.PigOwnRow | src/modules/pig_game/commands.rs:31-76 | `/pig` touches at most the sender's row and sends one message |
| CommandFacts.CreateAndFeedOwnRow | src/modules/pig_game/commands.rs:96-116 | creating then feeding touches at most the sender's row and sends one message |
| CommandFacts.FedAfterCreate | src/modules/pig_game/commands.rs:97-108 | feeding after a create still touches only the sender's row |
| CommandFacts.GrowOwnRow | src/modules/pig_game/commands.rs:78-122 | `/grow` touches at most the sender's row and sends one message |
| CommandFacts.NameOwnRow | src/modules/pig_game/commands.rs:226-275 | `/name` touches at most the sender's row and sends one message |
| CommandFacts.DispatchPig | src/modules/pig_game/commands.rs:31-37 | the word `pig` runs `/pig` with the joined arguments or the default name |
| CommandFacts.DispatchGrow | src/modules/pig_game/commands.rs:78-84 | both `grow` and `гров` run `/grow` |
| CommandFacts.DispatchName | src/modules/pig_game/commands.rs:226-230 | the word `name` runs `/name` |
| CommandFacts.ReadOnlyCommands | src/modules/pig_game/commands.rs:124-280 | `/my`, `/pigstats`, `/top` and unknown words change no table and send one message; an unknown word gets the fixed "unknown pig command" reply without a store call |
| CommandFacts.CommandTouchesOnlyOwnRow | src/modules/pig_game/commands.rs:12-284 | every pig command touches at most the sender's row, keeps the store well-formed and sends one message to the chat |
| CommandFacts.PigCreatesOnce | src/modules/pig_game/commands.rs:31-76 | `/pig` with a pig already there changes no table and names the existing pig (or reports the error); without one and with the store answering, exactly the draft is stored under a fresh id and congratulated |
| CommandFacts.NameChecksFirst | src/modules/pig_game/commands.rs:226-234 | `/name` with no arguments, or with 32 or more graphemes, is refused with no store access |
| CommandFacts.RenameKeepsPig | src/modules/pig_game/commands.rs:236-250 | a successful `/name` on an existing pig changes its name to the joined arguments and nothing else |
| CommandFacts.GrowLeavesFedPig | src/modules/pig_game/commands.rs:78-122 | with the store answering, `/grow` always leaves the sender with a stored pig of weight >= 1 and sends one feeding report; no cooldown is checked |
| CommandFacts.TopShows | src/modules/pig_game/commands.rs:193-224 | `/top` sends the database-error text when the query fails, the empty-chat text for a chat without pigs, and otherwise the first min(5, chat count) pigs of the heaviest-first order |
| CommandFacts.NameChristens | src/modules/pig_game/commands.rs:251-267 | a successful `/name` from a user without a pig creates one with the joined arguments as its name under the next id, adds one to the chat count and answers with the christening text |
| CommandFacts.TopListsHeaviest | src/modules/pig_game/commands.rs:193-224 | `/top` lists min(5, chat count) pigs of the chat, heaviest first, and no unlisted pig outweighs a listed one |
| CommandFacts.MyShowsRank | src/modules/pig_game/commands.rs:124-130 | `/my` shows the pig's name, weight and rank with the pig keyboard; the rank is its 1-based place in the chat's heaviest-first order |
| LegacyPigGame.StarterPig | src/modules/pig_game/mod.rs:33-67 | the older new pig has weight and last weight 10, every other counter at 0, and the given chat, user, owner and name |
| LegacyPigGame.FeedAddsFive | src/modules/pig_game/mod.rs:69-80 | the older feeding adds exactly 5 kilograms and stamps the time, stores that pig and reports it; it fails only with the store, then changing no row |
| LegacyPigGame.MyPigShowsFullCard | src/modules/pig_game/mod.rs:187-223 | `/mypig` changes no table and shows every counter of the stored pig, the poisoned status included |
| LegacyPigGame.FeedCommandReports | src/modules/pig_game/mod.rs:163-173 | with the store answering, `/feed` stores the pig five kilograms heavier and reports the new weight |
| LegacyPigGame.StarterWeighsTen | src/modules/pig_game/mod.rs:116-161 | the older `/pig` for a user without a pig stores a pig of weight 10 and congratulates with weight 10 |
| LegacyPigGame.FeedFixed | src/modules/pig_game/mod.rs:69-80 | the fed pig, the store and the result are those of `FeedFixedOp` |
| LegacyPigGame.HandleCommand | src/modules/pig_game/mod.rs:98-283 | the new store and the effects are those of `HandleCommandOp` |
| LegacyFacts.FeedFixedOwnRow | src/modules/pig_game/mod.rs:69-80 | the fixed feeding rewrites only the fed pig's row and keeps the store well-formed |
| LegacyFacts.FeedNeverCreates | src/modules/pig_game/mod.rs:163-185 | `/feed` for a user without a pig creates none, changes no table and replies with the create hint or the database error |
| LegacyFacts.FeedCommandOwnRow | src/modules/pig_game/mod.rs:163-185 | `/feed` touches at most the sender's row and sends one message |
| LegacyFacts.LegacyReadOnly | src/modules/pig_game/mod.rs:187-279 | `/mypig`, `/pigstats` and unknown words change no table and send one message; an unknown word gets the fixed "unknown pig command" reply without a store call |
| LegacyFacts.LegacyTouchesOnlyOwnRow | src/modules/pig_game/mod.rs:98-283 | every command of the older handler touches at most the sender's row, keeps the store well-formed and sends one message |
| Nahruk.BlockedIffTriggerOccurs | src/modules/powerful_nahruk/mod.rs:15-22 | a text is blocked exactly when one of the three trigger words occurs in it, case-sensitively; the reply is then the block notice |
| Nahruk.HandledIffReplied | src/modules/powerful_nahruk/mod.rs:47-58 | the module takes a message exactly when it replies to it, once, in its chat; a message with no text is read as "" |
| Reactions.ReactToMessage | src/modules/reactions/mod.rs:16-24 | the reaction is "" or one of the six emoji |
| Reactions.ReactsIffLowByte | src/modules/reactions/mod.rs:49-68 | the module reacts, and takes the message, exactly when the random byte is below 25, with the picked emoji |
| Reactions.EveryEmojiReachable | src/modules/reactions/mod.rs:16-24 | each of the six emoji can be picked |
| Router.FirstDeclaring | src/modules/mod.rs:56-57 | the position found is the first module declaring the command; None exactly when no module declares it |
| Router.CommandLines | src/modules/mod.rs:86-88 | one help line per declared command |
| Router.InOrder | src/modules/mod.rs:56 | the visiting order lists the registered modules at the positions of their names |
| Router.ModuleManager.constructor | src/modules/mod.rs:36-40 | a new manager has no modules |
| Router.ModuleManager.Visit | src/modules/mod.rs:56 | one module per name in the visiting order |
| Router.ModuleManager.BuildRegistry | src/main.rs:34-37 | `main` registers exactly the pig game, the nahruk module and the reactions module under their names |
| Router.ModuleManager.RegisterModule | src/modules/mod.rs:42-45 | registering files the module under its name, replacing one of the same name |
| Router.ModuleManager.DeclaresCommand | src/modules/mod.rs:57 | the scan finds the command exactly when the module declares it |
| Router.ModuleManager.HandleCommand | src/modules/mod.rs:47-65 | the store, the handled flag and the effects are those of `RouteCommandOp`: the first module declaring the command handles it |
| Router.ModuleManager.HandleMessage | src/modules/mod.rs:67-80 | the effects are those of the round that stops after the first module taking the message |
| Router.ModuleManager.Block | src/modules/mod.rs:85-89 | one module's block: its name line, a line per command, a blank line |
| Router.ModuleManager.GetAllCommands | src/modules/mod.rs:82-92 | the lines are every module's block in visiting order |
| RouterFacts.DeclaredWords | src/modules/pig_game/mod.rs:89-96 | a module declares a word exactly when it is the pig game and the word is pig, feed, mypig or pigstats |
| RouterFacts.RoutesToPigGame | src/modules/mod.rs:47-65 | a command is handled exactly when the pig game is registered and declares it, and then by the older handler; otherwise nothing changes and nothing is sent |
| RouterFacts.NewerCommandsUnrouted | src/modules/mod.rs:56-64 | `grow`, `гров`, `my`, `top` and `name` are never handled by the registry |
| RouterFacts.RegistryByName | src/main.rs:34-37 | each module of `main`'s registry is filed under its own name |
| RouterFacts.RegistryVisitsEach | src/modules/mod.rs:56 | whatever order the registry is visited in, each module comes up |
| RouterFacts.DeclinedSendsNothing | src/modules/mod.rs:20-28 | a module that declines a message sends nothing; the pig game's default always declines |
| RouterFacts.FirstTaker | src/modules/mod.rs:74-78 | the position found is the first module taking the message; None exactly when none does |
| RouterFacts.FirstTakerAnswers | src/modules/mod.rs:74-78 | the round's effects are exactly those of the first module that takes the message; later modules are not offered it |
| RouterFacts.OrderDecides | src/modules/mod.rs:74-78 | with both text modules willing, the visiting order decides whether the message is blocked or reacted to |
| RouterFacts.HelpLength | src/modules/mod.rs:82-92 | the help has two lines per module plus one per declared command |
| RouterFacts.HelpListsEveryCommand | src/modules/mod.rs:86-88 | every declared command is listed with its description |
| RouterFacts.HelpNamesEveryModule | src/modules/mod.rs:85 | every module has its name line |
| RouterFacts.HelpEmptyIffNoModules | src/main.rs:72-80 | the listing is empty, so "No commands available" is shown, exactly when no module is registered |
| Entry.WordLength | src/main.rs:66 | the leading word run holds no whitespace and is followed by whitespace or the end |
| Entry.SplitGivesWords | src/main.rs:66 | every piece `split_whitespace` gives is non-empty and has no whitespace |
| Entry.SplitKeepsText | src/main.rs:66 | the pieces together hold every non-whitespace character of the text, in order |
| Entry.SplitJoin | src/main.rs:66-68 | splitting words joined by single spaces gives the words back |
| Entry.SplitEmptyIffBlank | src/main.rs:66-67 | the split is empty exactly for an all-whitespace text |
| Entry.ParseWrittenCommand | src/main.rs:64-68 | `/word arg ...` parses back into that word and those arguments |
| Entry.HandleMessage | src/main.rs:57-100 | the new store and the effects are those of `HandleMessageOp` |
| EntryFacts.PlainTextGoesRound | src/main.rs:64-65 | text not starting with `/` (or no text) only goes round the modules |
| EntryFacts.BlankCommandGoesRound | src/main.rs:67 | a `/` followed only by whitespace also only goes round the modules |
| EntryFacts.HelpAnswered | src/main.rs:71-84 | `/help`, with any arguments, is answered with the listing, changes nothing and skips free-text dispatch |
| EntryFacts.ParsedCommandRouted | src/main.rs:85-98 | a parsed command other than help goes to the registry; when no module handles it the message goes round the modules too |
| EntryFacts.CommandRouted | src/main.rs:57-100 | a written command is handled by the older pig handler exactly when the pig game is registered and declares it; any other command goes round the modules |

## Left out

- The teloxide calls are recorded effects that never fail. The `?` on a failed
  send, an edit, a delete or `get_me` would end the handler early. An error from a
  module handler stops the registry loops (`src/modules/mod.rs:58-60`, `75`). The
  model has no such aborts.
- `src/main.rs:111-113` calls `ModuleManager::handle_callback_query`, which
  `src/modules/mod.rs` does not define. Callbacks are therefore modelled only as
  the pig game's own handler (`Callbacks.CallbackOp`), and not through the
  registry.
- `src/modules/pig_game/mod.rs:98-105` implements `handle_command` without the
  `config` parameter the trait asks for. `helpers.rs`, `commands.rs` and `mod.rs`
  define `create_new_pig`, `generate_default_pig_name` and `feed_pig` twice. Both
  versions are kept under distinct names, and the registry is given the `mod.rs`
  handler.
- Db.Database.UpdatePigName: `update_pig_name` is not defined in
  `src/database.rs`. It is taken to update only the name column and to fail with
  RowNotFound when no row has the key.
- Table.SearchByName: `find_pig_by_name` has no ORDER BY, so the order of its
  rows, and therefore which pig `/pigstats <name>` shows when several match
  (`commands.rs:148-149`, `mod.rs:230-231`), is left to the database. The model
  fixes table (insertion) order.
- Table.CreatePigOp: `create_pig` is taken to fail on a second row with the same
  (chat, user). This is the unique key the game relies on, and it is not visible
  in the query text.
- Floating point is replaced by exact `real` arithmetic with `Floor`. That covers
  `calculate_grow_range` and the `as f64` score. NaN, infinities and the
  saturating `as i32` casts are not modelled.
- Integers are unbounded. The `i32` overflow of `weight + growth` and `weight + 5`,
  the `as u32` of the window width and the `as i32` of the counts are not modelled.
- Helpers.GrowRangeBounds, Helpers.CatchUp and Feeding.Window: these assume
  non-negative tunables (`base_growth`, `weight_factor`, `rank_factor`). The
  defaults are non-negative; negative values from a configuration file are not
  covered.
- Feeding.FeedOp, Feeding.FeedPig, Callbacks.CallbackOp, Callbacks.HandleCallbackQuery,
  Commands.GrowCommand and Commands.HandlePigCommand: all of these require
  non-negative tunables. The feeding also requires that the pig is the stored row
  for its key, which holds at every call site because the pig was just read.
- Db.Database.CreatePig, Db.Database.UpdatePig, LegacyPigGame.FeedFixed and
  Commands.PigCommand: these require a non-negative weight, so the store keeps its
  invariant of non-negative weights. Every caller in the core passes one.
- Time, randomness, the bot's chat membership and the grapheme count are
  parameters.
  - Time: `now`.
  - Randomness: the growth draw `roll`, the default-name index, and the reaction
    byte and index. Their distributions are not modelled.
  - Chat membership: `botStatus`.
  - Grapheme count: `graphemes`.
- The registry's `HashMap` visiting order is a parameter, a list naming each
  registered module once. The lemmas hold for every order.
- Ties in `ORDER BY weight DESC` keep table order. The database leaves them
  unspecified, so the model fixes one admissible order.
- The JSON columns and the UUID of `loot` are kept as opaque text and a number.
- Concurrent updates (two feedings of the same pig racing) are not modelled.
  Handlers run one at a time.
- Case folding for `ILIKE` covers the Latin and Cyrillic capitals only.
  `char::is_whitespace` is modelled by the Unicode White_Space code points.
- `main`'s start-up (environment, database connection, migrations, the
  dispatcher), `config.rs` loading and logging are not modelled. The default
  tuning of `src/config.rs:56-65` is used as a constant.
