# Verified model of the text-adventure server

The server keeps one shared world for many players. Each connection runs in a goroutine of its
own, each fight in another, and every object has its own mutex. This project models that server
in Dafny, together with the part of the client that reads its lines, and proves what the program
relies on but states nowhere in one place.

| file | what it holds |
|---|---|
| `FightProtocol.dfy`, `FightSafety.dfy` | players, fights and zones, one critical section or channel meeting at a time; every interleaving |
| `FightCommands.dfy`, `AttackCommand.dfy` | what FLEE, MOVE, TALK, ATTACK and a disconnect each come to for their player, in every run |
| `Combat.dfy`, `Blows.dfy`, `FightChronicle.dfy` | the arithmetic of one round and of a whole fight and the fight loop; the fights of every run are fights of that arithmetic |
| `HealedInFight.dfy` | why healers and enemies must stand apart: the exact condition |
| `ItemFlow.dfy`, `ItemMoves.dfy` | take, drop, move and disconnect, one critical section at a time; the commands as methods, each proved to be a run of those steps; what TAKE and DROP come to in every run |
| `Parties.dfy`, `PartyNews.dfy`, `GroupServer.dfy` | groups, one whole command at a time: as a specification with its invariant, and as players and groups that point to each other, proved against it |
| `ClientMirror.dfy` | the client's group light, folded over the lines it hears, against the server's groups |
| `PartyLocks.dfy`, `PartySteps.dfy`, `PartyRuns.dfy`, `PartyRings.dfy`, `PartyRace.dfy`, `PartyOutcomes.dfy` | the same group commands one lock acquisition at a time: who is in its group, exactly; who can wait in a circle; and what happens then; what CREATE, JOIN and LEAVE come to |
| `QuestLog.dfy`, `QuestRewards.dfy` | quest progress, rewards, key items; where what a player holds comes from, and that the game can be won |
| `KeyItemBalance.dfy`, `BalanceExactly.dfy` | the load-time balance check against the running game, and when it passes |
| `QuestChain.dfy` | the prerequisite walk of the loader and the quest an NPC offers |
| `ZoneGraph.dfy` | breadth-first reachability and depth-first cycle detection on the map |
| `TokenBucket.dfy`, `LimitsInNumbers.dfy`, `RateLimit.dfy`, `Rejections.dfy`, `Throttles.dfy` | the three token buckets, also in numbers; timeouts, strikes and the ban; the rejection counter against the queries refused; the buckets as a player's commands use them |
| `BanExactly.dfy` | when the tenth violation bans, exactly |
| `Wire.dfy`, `WireJson.dfy`, `WireMalformed.dfy`, `NameCheck.dfy`, `GoStrings.dfy` | the server's printers, the client's parser, the name check, and the string functions below them |
| `SeqSets.dfy`, `Wrappers.dfy` | sequences without duplicates, pigeonhole; a value that may be missing |

Shared state that several goroutines touch at once (fights, items, group locks) is modelled as a
state machine whose steps are the code's critical sections; a run is any sequence of such steps.
State that one goroutine owns, or that changes one whole command at a time (quest log, limits,
the load-time checks, groups, a fight's HP), is modelled by classes and loops, each method proved
equal to a function on values, about which the theorems speak.

## What is assumed

- Every quest has at least one step; the server indexes the first one unchecked
  (`server/quests.go:86`, `server/NPCs.go:97`).
- No zone holds both a healer and an enemy that may outlast a player's blow, by dodging it or by
  having more than 8 HP (`World.Apart` in `FightProtocol.dfy`), and each NPC stands in one zone.
  `HealedInFight.ApartExactly` shows that the first is needed: on a map where every zone can be
  walked to, from the start and from the chapel, status and registry agree in every run if and only
  if it holds.
- The zone checks have passed before the map is walked, so every exit names a zone.
- The clock readings of one connection do not go back. A player's zero time stamp lies so far back
  that every bucket is full at the first call.
- Among printable runes the only white space is the plain space (`Runes.Ok` in `Wire.dfy`).

## Where the code keeps less than it promises

- The README of the repository (line 68) says that the tenth violation of a timeout becomes a ban.
  In the code it is the tenth to the nineteenth. For a timeout that the command bucket starts the
  promise holds, whatever the player goes on to send, if and only if at that moment fewer than ten
  query rejections stand in an open ten-second window: `BanExactly.TenExactly`, and over every
  history of a player `BanExactly.TimeoutBansAtTenExactly`. A timeout that the query bucket starts
  always bans at ten (`RateLimit.QueryTimeoutInHistory`).
- A join looks its group up and locks it in two steps (`server/groups.go:179-191`), and the code does
  not ask whether the group is still registered by then. A player is in its group throughout a run
  if and only if it never enters, free as it is, a group that is no longer registered; so everybody
  is if and only if nobody does that (`PartyRuns.StepExact`, `PlayerExact`, `RunExact`). Call such
  players strays. A ring of commands that wait for each other consists of strays only, each telling
  the members of a disbanded group, and takes two of them (`PartyRings.RingNeedsTwo`); with one stray
  at most, no command is ever stuck (`PartyRings.NeverStuck`). `JoinsADisbandedGroup` is a run with a
  stray, `JoinsCanDeadlock` one in which two wait for each other.
- "What a leaving player carried is at home when its cleanup ends" holds if and only if, whenever a
  TAKE picked it up there in the meantime, a DROP or another cleanup laid it down there again before
  the end (`ItemFlow.HomeAtTheEnd`).
- The balance check accepts a step that receives the very item it grants, although the game asks
  for all items before it grants any; such a quest can never be finished (`ValidatedButStuck`).
  The exact condition is `NeverBlocks`.

## Model

| member | source | states |
|---|---|---|
| ZoneGraph.ValidateMapConnectivity | server/worldDataValidator.go:20-48 | The breadth-first check passes if and only if every zone is reachable from the starting zone, for every order of exits; the loop terminates |
| ZoneGraph.LoopWalk.MapLooper | server/worldDataValidator.go:52-73 | The recursion terminates by the zones neither on the path nor explored; a found loop is real; otherwise the path is restored and every exit is explored without a way back |
| ZoneGraph.MapLoopExists | server/worldDataValidator.go:77-86 | True if and only if some zone reachable from the start lies on a cycle |
| ZoneGraph.ExploredIsLoopFree | server/worldDataValidator.go:58-69 | A walk that starts among the fully explored zones stays there and never returns to its start |
| ZoneGraph.NoLoopAfterExploring | server/worldDataValidator.go:72-86 | When all exits of the start are explored, no reachable zone lies on a cycle |
| QuestChain.WalkChain | server/parser.go:168-193 | With its cut-off the walk from one quest terminates; it reports a circle exactly when the quest requires itself through its chain, and a dangling reference exactly when the chain leaves the file |
| QuestChain.CheckRequirements | server/parser.go:163-193 | The file is accepted if and only if every chain ends; rejected if and only if some reference dangles or some quest lies on a circle of any length |
| QuestChain.LongWalkMeetsCircle | server/parser.go:182-184 | A walk longer than the number of quests has met a circle (pigeonhole) |
| QuestChain.ShortReturn | server/parser.go:178-184 | A quest on a circle returns to itself within the step bound, so the cut-off never hides it |
| QuestChain.SoundChainEnds | server/parser.go:175-193 | Without circles and dangling references every chain ends |
| QuestChain.AbandonedWalk | server/parser.go:182-184 | A concrete file where a walk into a foreign circle is abandoned and its quest accepted, while the quests on the circle are rejected |
| QuestChain.GetNPCQuest | server/getters.go:147-175 | Finds an eligible quest of the NPC exactly when there is one, in any order |
| QuestChain.SomeQuestIsOffered | server/getters.go:158-171 | Over an accepted file, a player who has completed all held quests and lacks one has an eligible one |
| QuestLog.Player.AcceptQuest | server/quests.go:135-159 | Adds one eligible quest of the NPC at step 0, Active, or changes nothing when none is eligible |
| QuestLog.Player.CompleteQuest | server/quests.go:181-230 | The whole new state: status, key item, positive gold, positive boost |
| QuestLog.Player.ExchangeItems | server/NPCs.go:132-161 | Known items are granted first and then known items taken away |
| QuestLog.Player.HandleTalk | server/NPCs.go:83-176 | TALK advances one active quest that waits for this NPC and has its items; it changes nothing only if none can go on or one answers that items are missing |
| QuestLog.Player.EnterZone | server/zones.go:285-315 | MOVE advances one quest waiting for the zone, or changes nothing when none waits |
| QuestLog.Player.WinFight | server/battle.go:175-207 | A won fight advances one quest waiting for that NPC, or changes nothing when none waits |
| QuestLog.RunKeeps | server/quests.go:181-230 | In every run Active means the index is in range and Completed that it is past the last step, gold is the sum of the completed rewards, battle skill is 7 plus their boosts, and every held quest has its prerequisite completed |
| QuestLog.RunOnlyForward | server/quests.go:135-230 | Across any part of a run no index falls, no quest is lost and no completion is undone |
| QuestLog.AlwaysAnotherQuest | server/quests.go:135-159 | With nothing active and a quest missing, some NPC offers one, and accepting there adds exactly one quest |
| QuestRewards.RewardArrives | server/quests.go:200-210 | In every run the reward item of a completed quest is held, unless some step asks for it |
| QuestRewards.HeldIsEarned | server/NPCs.go:132-161 | Every item held is the reward of a completed quest or granted by a step passed |
| QuestRewards.EventMoves | server/NPCs.go:107-171 | TALK, MOVE and a won fight move one quest that is ready for it by one step, with its items, gold and skill; they move none only if none is ready or one that lacks items answers first |
| QuestRewards.OneCanBeFinished | server/quests.go:181-230 | A held quest that never asks too much can be taken to its end |
| QuestRewards.TheGameCanBeWon | server/parser.go:163-193 | In a world whose prerequisites end, whose quests have givers and never ask too much, some run completes every quest and earns all gold and skill |
| KeyItemBalance.CheckBalance | server/worldDataValidator.go:309-396 | No error if and only if the quest is balanced step by step and nothing is outstanding at the end |
| KeyItemBalance.CheckGrants | server/worldDataValidator.go:327-342 | The list after a step's grants, and no error if and only if each is known and not yet listed |
| KeyItemBalance.CheckReceives | server/worldDataValidator.go:344-365 | The list after a step's receives, and no error if and only if each is known and listed or obtainable somewhere |
| BalanceExactly.BalancedExactly | server/worldDataValidator.go:309-396 | The check passes if and only if, item by item, every grant is loaded and not out, every receipt loaded and out or to be had somewhere, and none is out at the end |
| KeyItemBalance.OutstandingElems | server/worldDataValidator.go:309-365 | Read as a set, the check's list moves through a step exactly as an inventory does |
| KeyItemBalance.RunInStep | server/NPCs.go:107-171 | In every run of any mixture of quests the player holds, of the items a quest grants, exactly those the check lists at that index |
| KeyItemBalance.MatchedIsHeld | server/NPCs.go:110-128 | An item the check matches is in the player's hands at that step if and only if the step does not grant it itself |
| KeyItemBalance.NeverBlocks | server/NPCs.go:108-128 | A reached step that asks for items of its own quest can be passed if and only if it does not ask too early |
| KeyItemBalance.NothingLeftOver | server/worldDataValidator.go:394-396 | After a validated quest none of its step-granted items is left |
| KeyItemBalance.StuckForever | server/NPCs.go:120-128 | A quest with a step that asks too early is never finished in any run |
| KeyItemBalance.ValidatedButStuck | server/worldDataValidator.go:327-365 | In every world with such a quest, it passes the key-item check, some run accepts it, and no run completes it |
| TokenBucket.Throttle.TryTake | server/security.go:44-53 | Refill, cap, take one if there is one: the whole new state and the answer |
| TokenBucket.AcceptedWhenRoom | server/security.go:37-59 | A call is accepted if and only if, counted from every moment up to it, the accepted calls leave room for one more in capacity plus refill; for all three buckets |
| TokenBucket.WindowBound | server/loginConnection.go:140-159 | Any window of calls accepts at most capacity plus refill over its length |
| TokenBucket.LevelIsLeast | server/security.go:44-47 | The level is the least of what every earlier moment leaves, and one of them attains it |
| TokenBucket.FreshIsFull | server/security.go:44-47 | A bucket with a zero time stamp is full at the first call if and only if the time since then refills it |
| LimitsInNumbers.BurstExactly | server/security.go:37-59 | Of calls at one moment exactly the first 12 commands, 10 queries or 10 logins get through |
| LimitsInNumbers.StretchBound | server/loginConnection.go:140-159 | In no stretch of time more than these and 1.1, 0.9 or 0.5 a second |
| LimitsInNumbers.DryFor | server/security.go:44-53 | An empty bucket gives its next token after 10/11, 10/9 or 2 seconds and not before |
| Throttles.BucketFollows | server/commandDispatch.go:57-117 | In every history the bucket a player has is the one asked at the times its commands asked it, and at no others |
| Throttles.TokenWhenRoom | server/commandDispatch.go:57-122 | In every history of a new player a command that asks a bucket is served if and only if the closed form leaves room, for the query and the command bucket |
| RateLimit.Player.HandleQueryBucket | server/security.go:63-98 | The whole new state, with the 10-second window and the reset at the twentieth rejection |
| RateLimit.Player.HandleTimeoutBucket | server/security.go:37-59 | The whole new state; an empty bucket starts the timeout and clears the strike count |
| RateLimit.Player.HandleSoftban | server/security.go:124-146 | One strike more; the tenth counted strike bans |
| RateLimit.Player.CommandDispatch | server/commandDispatch.go:57-122 | The order of the checks: query bucket before the timeout check, timeout check before the command bucket |
| RateLimit.RejectionsBelow20 | server/security.go:81-95 | For every history the rejection counter rests at 19 or below |
| Rejections.CounterCountsRefusals | server/security.go:81-95 | In every history the counter is the number of queries refused since the window was opened, every twentieth counted as a first |
| Rejections.NewPlayerCounts | server/security.go:81-93 | For a new player the count starts from nothing |
| Rejections.TwentiethStartsTimeout | server/security.go:89-93 | A query moves the end of the timeout, to 60 seconds later, if and only if it is such a twentieth |
| Rejections.TwentyQueries | server/security.go:81-93 | With a dry bucket and no window open, nineteen queries at one moment start nothing and the twentieth does |
| RateLimit.KeepsCounting | server/security.go:89-93 | While a timeout stays active there is at most one reset by the query bucket; strikes equal violations before it and trail them by at most nine after it |
| RateLimit.NoEarlyBan | server/security.go:124-146 | A ban comes at the 10th to the 19th violation since the timeout began, whatever the mix of commands |
| RateLimit.NoLateBan | server/commandDispatch.go:57-122 | The 19th violation bans |
| RateLimit.TimeoutStart | server/security.go:55-56 | A timeout that the command bucket starts, in any history, ends sixty seconds later and begins with no strikes and at most 19 rejections |
| RateLimit.QueryTimeoutBansAtTen | server/security.go:89-95 | From one strike and one rejection, the ban is exactly the tenth violation, counting the one before |
| RateLimit.QueryTimeoutStart | server/security.go:89-95 | In every history a query moves the end of the timeout exactly as the twentieth rejection of its window, and leaves one rejection and, checked before the new end, one strike |
| RateLimit.QueryTimeoutInHistory | server/commandDispatch.go:57-105 | So in every history of a player a timeout begun by the query bucket bans at exactly the tenth violation, counting the query that began it |
| RateLimit.NineteenIsReached | server/security.go:81-98 | Nineteen is attained: a concrete mix of commands, not banned before |
| RateLimit.TenIsReached | server/security.go:131-142 | Ten is attained by commands alone |
| RateLimit.NewPlayerGetsThere | server/commandDispatch.go:57-122 | A fresh player can bring about the state that needs nineteen |
| BanExactly.TenExactly | server/security.go:81-146 | From the start of a timeout, over every continuation: the tenth violation bans and no other, if and only if fewer than ten rejections stand in an open window |
| BanExactly.TimeoutBansAtTenExactly | server/commandDispatch.go:107-122 | The same wherever the command bucket starts a timeout in any history of a player |
| BanExactly.StaysEven | server/security.go:81-98 | With fewer than ten rejections strikes equal violations at every call of the timeout, whatever is sent |
| BanExactly.TenPass | server/security.go:81-98 | With ten or more, some ordering of commands and queries makes ten violations and no ban |
| BanExactly.ClockKeepsTimeout | server/security.go:24-34 | On a clock that does not go back, checks that read less than the end of the timeout keep it active |
| Combat.BattleField.ApplyDmgToPlayer | server/battle.go:288-295 | HP falls by the damage; felled exactly when nothing is left |
| Combat.BattleField.CalcRound | server/battle.go:315-367 | A round in the order the sides act leaves the state and the report of the specification |
| Combat.BattleField.ProcessBattle | server/battle.go:298-406 | The loop plays exactly the rounds up to the first that ends the fight, and a lost fight leaves half the maximum HP, rounded up |
| Combat.RoundIsFair | server/battle.go:317-367 | Reported HP are the old ones less reported damage, floored at 0; a round ends the fight exactly when one side, never both, is at 0; a side felled before its turn deals nothing; a landed hit costs at least strength + 1 |
| Blows.RoundByBlows | server/battle.go:232-350 | The whole report and both HPs, from who strikes: the initiative with ties to the player, the luck roll against the dexterity, strength plus skill roll |
| Blows.PlayerDodgesByDexterity | server/battle.go:241-246 | Of the hundred luck rolls exactly as many as its dexterity let the player dodge, the lowest; any other costs the enemy's strength and skill roll |
| Blows.EnemyDodgesByDexterity | server/battle.go:265-270 | The same for the player's blow |
| Blows.HalfIsLeft | server/battle.go:380-389 | A lost fight leaves half of the maximum, rounded up |
| Blows.FightPlaysOut | server/battle.go:301-406 | The loop plays a round for every ATTACK until one ends the fight |
| Combat.FightChains | server/battle.go:301-405 | Each round of a fight starts from what the one before left |
| Combat.FightGoesOn | server/battle.go:369-404 | Only the last round of a fight ends it |
| Combat.BothStand | server/battle.go:317-354 | While a fight goes on both sides have HP left |
| Combat.HitsAddUp | server/battle.go:317-354 | Landed hits times strength + 1, plus the HP left, never exceed the HP at the start, for both sides and every prefix |
| Combat.FightIsShort | server/battle.go:298-406 | The fight is over by ceil(HP / (strength + 1)) landed hits of either side |
| Combat.PlayedIsShort | server/battle.go:232-236 | The same while the player's battle skill grows between rounds |
| FightChronicle.FightInRun | server/battle.go:298-406 | From its registration on, at every moment of every interleaved run, the rounds of a fight chain into one fight against the registered enemy, from the HP the player then had |
| FightChronicle.FightInRunIsShort | server/battle.go:315-404 | So in every run a fight is over by the landed hits either side can take, and until then the hits are paid for |
| FightChronicle.ChronicleStep | server/battle.go:315-404 | Each step of any goroutine adds the round it plays to the fight's rounds, and otherwise leaves HP and rounds as they were |
| FightSafety.StepKeeps | server/battle.go:44-134 | Every single step, of a connection or a fight, keeps the invariant that links players, zones, fights, the registry and the occupied flags |
| FightSafety.RunKeeps | server/battle.go:298-406 | So does every run of connection and fight goroutines, in any interleaving |
| FightSafety.NothingBreaks | server/commandDispatch.go:145-167 | No player ever sends on or closes a closed channel, and the engaged-without-a-fight branch is never taken |
| FightSafety.AtCommandBoundary | server/battle.go:71-118 | Between commands Engaged holds exactly when the player has an open fight; HP is in 1..100; the player is in exactly one zone's list, the one of the NPC it fights |
| FightSafety.OneOwner | server/battle.go:213-229 | At most one fight owns an NPC, and the flag is cleared only on behalf of its owner |
| FightSafety.OccupiedIsOpen | server/battle.go:369-376 | Between commands the occupied NPCs are exactly those of the open fights, one each |
| FightSafety.SendIsMet | server/battle.go:133 | A PlayerAttack send always meets an open channel whose reader is there or one step away |
| FightSafety.ResultComes | server/battle.go:134 | Every send gets exactly one result: the fight goroutine always has a step to make towards it |
| FightSafety.ResultComesCloser | server/battle.go:369-404 | Each step of that goroutine brings the result closer, and nobody else's step touches the fight |
| FightSafety.HealingBreaksSync | server/NPCs.go:223-233 | TALK breaks the agreement of status and registry if and only if it heals a player with an open fight |
| FightCommands.FleeEndsTheFight | server/commandDispatch.go:145-167 | In every run, from FLEE to the next command boundary: the fight is off the registry and closed, its NPC free or somebody else's, the status that of the HP with its limits at 30 and 60, HP and place as before; without a fight nothing changes |
| FightCommands.MoveArrives | server/zones.go:217-280 | MOVE puts the player into the zone, and no other, if there is an exit to it and no fight, and otherwise changes nothing |
| FightCommands.TalkHealsFully | server/NPCs.go:203-233 | TALK to a healer in the zone brings a hurt player to full HP and good health, and otherwise changes nothing here |
| FightCommands.QuitLeavesNothing | server/player.go:133-188 | A disconnect never returns to the command boundary; afterwards the player is in no fight and no zone and its fight is closed |
| FightCommands.NewcomerIsFresh | server/player.go:63-82 | A newcomer stands in the starting zone and no other, at full HP, in no fight |
| FightCommands.GoesOn | server/commandDispatch.go:145-167 | Each of these commands has a next step of its own to make as long as it is under way |
| AttackCommand.AttackIsOneRound | server/battle.go:60-210 | In every run an ATTACK plays exactly one round, of the registered fight or a new one against the NPC named, and what the round came to is in both HPs, the registry, the status and the player's place; or it is refused, without change, for one of the three reasons |
| AttackCommand.AttackGoesOn | server/battle.go:133-134 | While it is under way its connection or its fight has a step to make |
| HealedInFight.HealedInTheMiddle | server/NPCs.go:223-233 | In every world with a healer and an enemy that may outlast a blow in one zone a player can walk to, some run leaves the player fighting and Healthy |
| HealedInFight.ApartExactly | server/NPCs.go:223-233 | On a map where every zone can be walked to from the start and from the chapel, Engaged agrees with the registry in every run if and only if no zone holds both |
| ItemFlow.EveryItemOnce | server/items.go:78-149 | In every interleaving each item is in exactly one zone, live inventory or pair of hands, and what is not obtainable never leaves its own zone |
| ItemFlow.CarriedComesHome | server/player.go:150-188 | Everything carried when a cleanup begins is put back into its own zone before the cleanup ends |
| ItemFlow.HomeAtTheEnd | server/player.go:150-188 | It is there when the cleanup ends if and only if each TAKE that picked it up there in between is followed by a DROP or a cleanup that laid it down there before the end |
| ItemFlow.TakenIsPickedUp | server/items.go:92-107 | It leaves its own zone exactly by the step of a TAKE that picks it up there |
| ItemFlow.PutBackIsLaidDown | server/items.go:140-149 | It comes back exactly by a DROP there, by the cleanup of a carrier who stands there, or by the return of a cleanup |
| ItemFlow.HomeUnlessTaken | server/player.go:150-188 | So it is there if nobody takes it in the meantime |
| ItemFlow.TakenBySomebody | server/items.go:92-107 | A taking is a TAKE of a player in that zone, who then carries the item |
| ItemFlow.StaysHome | server/items.go:92-107 | An item at home stays there as long as nobody takes it |
| ItemFlow.TakenMeanwhile | server/player.go:169-188 | A concrete run in which somebody else carries the item when the cleanup ends |
| ItemFlow.Server.ItemTake | server/items.go:78-113 | The method does what the machine does when TAKE is not interrupted, with the right error otherwise |
| ItemFlow.Server.ItemDrop | server/items.go:116-149 | The method does the three critical sections of DROP, or refuses and changes nothing |
| ItemFlow.Server.CleanupItems | server/player.go:155-188 | Every zone gains exactly the carried items that belong to it, in any order, by steps of the machine |
| ItemFlow.SolelyKeeps | server/items.go:78-149 | Whatever the methods do keeps every item in exactly one place |
| ItemMoves.TakeMovesTheItem | server/items.go:78-113 | In every run TAKE puts an obtainable item that lies in the player's zone, whichever that is, into its inventory, and moves nothing else; otherwise it moves nothing |
| ItemMoves.DropMovesTheItem | server/items.go:116-149 | DROP lays what is carried into the zone and takes it out of the inventory, or changes nothing |
| ItemMoves.WalkCarriesAll | server/zones.go:217-247 | A walk moves no item: what is carried stays with the player |
| ItemMoves.CleanupGoesOn | server/player.go:150-188 | A cleanup can always return each item that is left, and end when none is |
| Parties.RunKeeps | server/groups.go:117-276 | Every run of logins, creates, invites, joins, leaves, chats and disconnects keeps the group invariant |
| Parties.GroupsAreApart | server/groups.go:117-143 | A registered group's members are exactly the players whose group it is; groups share none; the leader is online and in it |
| Parties.ReleasedKeeps | server/player.go:134-148 | Leave, disband and disconnect keep the invariant and leave the player in no group |
| PartyNews.NewsForAll | server/groups.go:28-108 | Every command moves and tells every player exactly what can be foreseen from the players' groups alone: who hears a chat, a join, a departure, an invitation, and which answer it gets |
| PartyNews.RefusalsAreRead | server/errors.go:29-48 | Each refusal reaches the client with its own code and text |
| GroupServer.Server.ValidIsLinked | server/groups.go:16-21 | What the pointers say is what the group invariant says |
| GroupServer.Server.GroupCreate | server/groups.go:117-143 | A new group with its leader registered under it, or nothing when the player has one |
| GroupServer.Server.Create | server/groups.go:28-39 | The whole new state, answer included |
| GroupServer.Server.GroupInvite | server/groups.go:146-175 | The verdict in the order of the checks; the invitee hears of it exactly on success |
| GroupServer.Server.Invite | server/groups.go:41-72 | The whole new state, for every error and for success |
| GroupServer.Server.GroupJoin | server/groups.go:178-214 | Joins exactly when the group is registered and the player free; every other member hears of it |
| GroupServer.Server.Join | server/groups.go:74-84 | The whole new state, answer included |
| GroupServer.Server.GroupLeave | server/groups.go:217-247 | A leader disbands; another member leaves and the rest hear of it; a stranger gets the error |
| GroupServer.Server.Leave | server/groups.go:86-108 | The whole new state, answer and own leave event included |
| GroupServer.Server.GroupDisband | server/groups.go:250-276 | The group is unregistered, every member freed, and every other member told of the leader's and its own leaving |
| GroupServer.Server.Chat | server/chat.go:65-86 | Every other member hears the message, the sender gets OK |
| GroupServer.Server.Connect | server/loginConnection.go:66-108 | A fresh player, unless the name is online |
| GroupServer.Server.ProcessConn | server/loginConnection.go:36-108 | The verdict of the name check, and a fresh player exactly when it accepts and the name is not online |
| GroupServer.Server.Cleanup | server/player.go:146-148 | A disconnect releases the player from its group before it goes |
| ClientMirror.Router.HandleGroup | GUI/replyHandlers.go:99-125 | The new value of the light for every action |
| ClientMirror.Router.Receive | GUI/serverResponseParser.go:335-352 | The light is the fold of everything heard |
| ClientMirror.HeededAsMeant | GUI/replyHandlers.go:99-125 | Parsed and handled, every line the server prints does to the light what it means |
| ClientMirror.LightIsLamp | GUI/replyHandlers.go:99-125 | And so does every sequence of them |
| ClientMirror.MirrorAgrees | GUI/replyHandlers.go:99-125 | After every run the client's light is on exactly when the server has its player in a group |
| ClientMirror.DisbandedTruthful | server/groups.go:259-275 | After a disband every other member's light ought to be off |
| ClientMirror.ChatIsQuiet | server/chat.go:78-83 | Group chat shares the prefix of group events and never moves the light |
| PartyRings.NeverStuck | server/groups.go:117-276 | In every interleaving of lock steps, while at most one player has entered a disbanded group, no ring of commands waits for each other, and while one is under way one can go on |
| PartyRings.NoCircularWait | server/groups.go:120-141 | With one stray at most, no ring of any length in any state of the invariant |
| PartyLocks.RankFalls | server/groups.go:250-264 | With one stray at most, whoever is waited for stands lower in a fixed order, although create takes PlayerMu before partiesMu and disband takes them the other way round |
| PartyLocks.VisitedHoldNothing | server/groups.go:259-264 | A member a disband has yet to visit, or a join or leave of a registered group tells, never holds its own lock at that moment |
| PartyLocks.MiddleIsAstray | server/groups.go:206-211 | In any chain of four waits the one in the middle is telling the members of a disbanded group that it entered |
| PartyRuns.StepKeeps | server/groups.go:117-276 | Every lock step keeps: exclusive locks, members of registered groups in them, and every player but the strays in its group, with the group still set for those a disband has yet to visit |
| PartyRuns.RunKeeps | server/groups.go:117-276 | So does every run, whatever its joins find |
| PartyRuns.StepExact | server/groups.go:179-214 | After a step a player that has never strayed is in its group if and only if the step is not its own entering, while free, of a group no longer registered |
| PartyRuns.PlayerExact | server/groups.go:179-214 | A player is in its group all along a run if and only if it never does that |
| PartyRuns.RunExact | server/groups.go:179-214 | Everybody is, all along, if and only if nobody does that |
| PartyRuns.StrayedSome | server/groups.go:191-204 | Who counts as a stray: the players with such a step in the run |
| PartyRuns.SettledInGroups | server/groups.go:117-276 | With every command over, the group of every player that never strayed is registered and lists it |
| PartyOutcomes.CreateFounds | server/groups.go:117-143 | From CREATE to its end, in every interleaving of lock steps: the player leads a new registered group, or had one and still has |
| PartyOutcomes.JoinEnters | server/groups.go:178-214 | After JOIN the player is in the group it looked up and listed there, or had one and still has; without such a group nothing happens |
| PartyOutcomes.InviteAsks | server/groups.go:146-175 | INVITE comes to ask the invitee, under the lock of the group, if and only if the player leads its group and invites somebody else |
| PartyOutcomes.LeaveFrees | server/groups.go:217-276 | After LEAVE the player is in no group; one that it led is not registered, and nobody but strays is in it |
| PartyOutcomes.EverybodyIsVisited | server/groups.go:206-264 | A join or leave that takes effect tells every other member, and a disband lets every member go, before it is over |
| PartyRings.RingNeedsTwo | server/groups.go:179-211 | In every run, each player in a ring of waiting commands has entered a disbanded group and is telling its members, and there are two such players |
| PartyRuns.OneStepIsEnough | server/groups.go:179-191 | Were lookup and lock one step, nobody would ever stray |
| PartyRace.JoinsADisbandedGroup | server/groups.go:179-191 | With lookup and lock apart a player can end up in an unregistered group: a concrete run |
| PartyRace.JoinsCanDeadlock | server/groups.go:206-211 | And two joins can wait for each other: a concrete run |
| PartyRings.RingStays | server/groups.go:191-211 | Such a ring is for ever: no step of anyone breaks it |
| Wire.AcceptedIsWord | server/loginConnection.go:36-64 | An accepted name is one word of 2 to 10 runes and no reserved word |
| NameCheck.NamesLetIn | server/loginConnection.go:36-64 | A name is let in if and only if it has 2 to 10 printable runes, no space, and is not reserved; each refusal exactly for its reason |
| Wire.AcceptedNameIsReadBack | server/events.go:6-43 | For every accepted name the client reads back every line that carries it, with every amount and message |
| Wire.PresenceRoundTrip | GUI/serverResponseParser.go:296-303 | Presence events come back with direction and player |
| Wire.GroupRoundTrip | GUI/serverResponseParser.go:345-352 | Group events come back with action and player |
| Wire.ChatRoundTrip | GUI/serverResponseParser.go:320-333 | Chat of every scope comes back with sender and message, up to trailing white space |
| Wire.CountRoundTrip | GUI/serverResponseParser.go:305-318 | The player count comes back through decimal printing |
| Wire.RespawnRoundTrip | GUI/serverResponseParser.go:279-280 | The respawn event comes back with its room |
| Wire.GroupReplyRoundTrip | GUI/serverResponseParser.go:335-343 | The answers to create and join come back with the leader |
| Wire.TakeDropRoundTrip | GUI/serverResponseParser.go:282-294 | The answers to take and drop come back with the item |
| Wire.RoomRoundTrip | GUI/serverResponseParser.go:221-227 | The answer to a move comes back with the room |
| Wire.BalanceRoundTrip | GUI/serverResponseParser.go:269-277 | The gold balance comes back as a number |
| Wire.ErrorRoundTrip | GUI/serverResponseParser.go:401-419 | An error comes back with code and whole text, spaces included |
| Wire.OkRoundTrip | GUI/serverResponseParser.go:215-216 | The bare acknowledgement is ignored |
| Wire.GoldRoundTrip | GUI/serverResponseParser.go:427-445 | A payment comes back with receiver and amount |
| Wire.KeyItemRoundTrip | GUI/serverResponseParser.go:448-467 | A key-item reward comes back if and only if the name is its own words joined by single spaces and not of the form "(integer) gold" |
| Wire.ReadAsGold | GUI/serverResponseParser.go:203-209 | A key item of that form is read as a payment |
| Wire.EventsSkipTheRest | GUI/serverResponseParser.go:214-421 | An event line meets none of the branches for other lines, in the order of the cascade |
| WireJson.ObjectsAreSorted | GUI/serverResponseParser.go:229-262 | A JSON object is decoded exactly if its first key is one of five, and shown as dialogue otherwise |
| WireJson.ListsAreSorted | GUI/serverResponseParser.go:361-399 | A list is empty, decoded or dialogue, by what it begins with |
| WireJson.BattleEndIsRead | GUI/serverResponseParser.go:263-264 | The answer to FLEE is read as the end of the battle |
| WireMalformed.NumbersExactly | GUI/serverResponseParser.go:313 | A number is digits with a sign or none, within 64 bits; anything else is refused |
| WireMalformed.ErrorsExactly | GUI/serverResponseParser.go:401-419 | An error line is read if its code is a number and is malformed otherwise |
| WireMalformed.ErrorWithoutText | GUI/serverResponseParser.go:404-406 | And malformed without a text |
| WireMalformed.CountsExactly | GUI/serverResponseParser.go:305-318 | A player count is read if it is a number and is malformed otherwise |
| WireMalformed.PresenceExactly | GUI/serverResponseParser.go:296-303 | A presence event is of exactly one player, and malformed otherwise |
| WireMalformed.GroupWithoutPlayer | GUI/serverResponseParser.go:345-352 | A group event without a player is malformed |
| WireMalformed.BalanceExactly | GUI/serverResponseParser.go:266-277 | A balance that is no number is ignored |
| GoStrings.AtoiOfItoa | GUI/serverResponseParser.go:313 | Decimal printing is undone by decimal parsing |
| GoStrings.FieldsSnoc | GUI/serverResponseParser.go:428 | One more rune at the end lengthens the last word only |

## Left out

- Screens, widgets, themes and images of the client: user interface over a library that is not part of this model.
- Sockets, deadlines, signals, shutdown and logging: a write appends to the player's lines and succeeds.
- JSON and YAML: quests, zones and NPCs start out parsed, and the JSON branches of the reply parser return their text (`WireJson` says which lines reach them).
- Random numbers: a roll is any value in its range.
- Case folding and the lookup of items and NPCs by name: identifiers are used directly. Name reservation is proved over arbitrary rune tables.
- LOOK, WHO, EXAMINE, INVENTORY, KEYITEMS, QUESTS and the other printing commands: they only read.
- The counting checks of the world validation (something is empty, something has too few): each is settled by its one branch.
- The two command-line clients and the client's `OK []` and battle-log heuristics.
- FightProtocol, ItemFlow and PartyLocks are values with steps rather than classes: their subject is the interleaving of goroutines, which no method of a class can express. What is lost is the aliasing of objects inside one step. ItemFlow.Server runs the same commands as methods and is tied to the steps; GroupServer and Combat give the group commands and the fight loop on objects.
- FightProtocol leaves the player's battle skill free in each round, from 7 up, since quests may raise it in between.
- BanExactly speaks of timeouts that the command bucket starts, over calls whose clock readings do not go back.
- GroupServer and Parties run whole commands. PartyLocks takes single locks over a fixed population of players: logins and disconnects do not occur there (a disconnect leaves its group by the same steps as LEAVE).
- PartyRings.RingNeedsTwo goes one way: two strays need not meet in a ring, and whether they do depends on the order of their steps.
- HealedInFight.ApartExactly supposes that the chapel leads everywhere; the load-time check asks that of the starting zone only. Without it the answer would hang on which enemies a player can be hurt by on the way.
- PartyLocks counts a critical section that locks nothing further as one step, so a lock held only for such a section is never seen held.
- GroupServer.Server.Connect takes a name that the name check has accepted; ProcessConn is the whole command.
- Parties and GroupServer key the registry by the leader's name, which the server prefixes with `PT-`; the lines carry the prefix.
- Wire: lines in invalid UTF-8, chat from NPCs and respawn rooms other than the configured one. Rooms and items in replies are single words; an error text may have any form that does not end in white space.
- Wire: integers are those of a 64-bit machine; an amount above the largest is out of scope because the server cannot hold it.
- The ban's clock (twenty minutes) and its list by address: the model ends when the connection is closed.
- TokenBucket and RateLimit compute over the reals; rounding is not modelled.
- A quest can be accepted from any zone in the code, and in the model.
