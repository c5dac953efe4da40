# Monster battle engine: a Dafny model

This project models the logic of a small turn-based monster-battle engine
written in JavaScript. The engine comes in two generations, and each is
modelled as it is written:

- **The modular engine.** It is built from these pieces:
  - a `Monster` with flat-defense damage and clamped healing;
  - three state classes (attack, defend, stunned) that transform damage;
  - four attack strategies that deal randomised, type-dependent damage;
  - an attack command;
  - two roster managers (`core/Player.js` and `observer/Player.js`);
  - a de-duplicating observer subject;
  - a turn engine with an append-only battle log;
  - a log store and an emphasizing decorator;
  - a monster factory with level scaling.
- **The early single-file draft** (`PokeRogue.js`). Its strategies deal fixed
  damage, its monster recomputes its state from its hit points, and it has a
  three-entry factory and a plain subject/player pair.

One Dafny module covers each source file or package:

| module | file | source |
|---|---|---|
| `Common` | `common.dfy` | shared pieces |
| `Monsters` | `monsters.dfy` | `core/Monster.js` |
| `States` | `states.dfy` | the state classes |
| `Strategies` | `strategies.dfy` | the strategies |
| `Commands` | `commands.dfy` | the attack command |
| `Subjects` | `subject.dfy` | the observer subject |
| `CorePlayer` | `core_player.dfy` | `core/Player.js` |
| `ObserverPlayer` | `observer_player.dfy` | `observer/Player.js` |
| `Battle` | `battle_context.dfy` | `core/BattleContext.js` |
| `BattleLog` | `battle_logger.dfy` | the log store |
| `Emphasis` | `emphasized_logger.dfy` | the decorator |
| `Factory` | `monster_factory.dfy` | the factory |
| `Draft` | `draft.dfy` | the draft |

`Common` holds error outcomes, observer deliveries and list helpers.

How the JavaScript maps onto Dafny:

- **Mutable objects.** Objects whose fields the code updates are Dafny
  classes, and their methods state their whole new state.
- **Notifications.** Every `observer.update(message)` call is recorded as a
  `Delivery(observer, message)`. The deliveries go, in order, into the
  notifier's `outbox`.
- **Exceptions.** Thrown exceptions become `Outcome`/`Result` values:
  - `Error` carries the source's exact message;
  - `TypeError` stands for reading a property of `null` or `undefined`;
  - `ReferenceError` stands for an identifier that is not in scope.
- **Randomness.** `Math.random()` becomes a parameter in `[0, 1)`.
- **Arithmetic.** The multipliers (0.5, 1.5, 2, the 0.8–1.2 variation and the
  0.1 level step) are exact rationals, and `Math.floor` is `.Floor`.

The two versions of `ObserverPlayer` and `CorePlayer` are distinct on purpose:
`core/Player.js` checks its arguments and leaves `activeMonster` alone on
removal, while `observer/Player.js` checks nothing and moves `activeMonster`
to the first remaining monster.

Twostate predicates state the effect of an attack:

- `Strategies.Struck` covers one strategy hit. The target's hit points
  become `HpAfterHit` of their old value. Its observers hear the mitigated
  damage, and the attacker's observers hear the computed damage.
- `Strategies.Untouched` covers an attack that threw and changed nothing.
- `Battle.Exchanged` gives both halves of a turn as functions of the hit
  points and notifications before the turn.

Two behaviours a reader might expect are not in the code; the model follows the code:

- `executeTurn` does not refuse to run after the battle has ended. Only
  `nextTurn` throws.
- `Monster.takeDamage` never consults the monster's state.

## Model

| member | source | states |
|---|---|---|
| `Common.Broadcast` | core/Monster.js:61-63 | one delivery per listed observer, in list order, each carrying the message |
| `Common.DeliverAll` | core/Monster.js:62 | the forEach loop delivers exactly `Broadcast(observers, message)` |
| `Common.RemoveAll` | core/Monster.js:57-59 | the filtered list holds no copy of the removed value, keeps every other element and is the list itself when the value is absent |
| `Common.RemoveAllAppend` | observer/Subject.js:23-25 | filtering distributes over concatenation, so the survivors keep their order |
| `Common.RemoveAllKeepsNoDuplicates` | observer/Subject.js:23-25 | filtering a duplicate-free list keeps it duplicate-free |
| `Common.RemoveOneOfDistinct` | core/Player.js:35 | removing a member of a duplicate-free roster shortens it by exactly one |
| `Monsters.Mitigated` | core/Monster.js:30 | the damage actually applied is at least 1 and at least damage minus defense, and is one of the two |
| `Monsters.LoseHp` | core/Monster.js:31 | hit points after a loss are never negative and are either 0 or the plain difference |
| `Monsters.HealAmount` | core/Monster.js:37 | a heal adds at most the amount and never passes maxHp, adds the whole amount unless it hits maxHp, and is non-negative for a non-negative amount below maxHp |
| `Monsters.HpAfterHit` | core/Monster.js:29-31 | after a hit hp is non-negative, never grows, drops by at least 1 when positive, and when still positive has dropped by exactly the mitigated damage |
| `Monsters.SurvivesHitIff` | core/Monster.js:30-31 | a monster survives a hit exactly when its hit points exceed the mitigated damage |
| `Monsters.Monster.constructor` | core/Monster.js:15-24 | maxHp equals the starting hp, the state is null, and there are no observers |
| `Monsters.Monster.TakeDamage` | core/Monster.js:29-34 | returns the mitigated damage (which may exceed the hp lost), clamps hp at 0, changes only hp, leaves the monster alive exactly when its hp exceeded the mitigated damage, and notifies each observer once |
| `Monsters.Monster.Heal` | core/Monster.js:36-41 | adds and returns `min(maxHp - hp, amount)`, keeps `0 <= hp <= maxHp` for a non-negative amount, and notifies once |
| `Monsters.Monster.IsAlive` | core/Monster.js:43-45 | alive exactly when hp is positive; `TakeDamage` states when a hit leaves the monster alive |
| `Monsters.Monster.SetState` | core/Monster.js:47-50 | records the new state class and announces its class name |
| `Monsters.Monster.AddObserver` | core/Monster.js:53-55 | appends the observer, duplicates allowed |
| `Monsters.Monster.RemoveObserver` | core/Monster.js:57-59 | drops every copy of the observer and keeps the rest in order |
| `Monsters.Monster.NotifyObservers` | core/Monster.js:61-63 | each listed observer hears the message once, in order |
| `States.FloorThreeHalves` | states/AttackState.js:19 | the floor of 1.5x, bracketed exactly, and never below the input for a non-negative input |
| `States.Halved` | states/DefendState.js:29 | the floor of half the damage, bracketed exactly, and between 0 and the damage for a non-negative input |
| `States.DefendNeverWorse` | states/DefendState.js:28-30 | for non-negative damage, defending never loses more hp than taking the damage unchanged |
| `States.StunnedNeverBetter` | states/StunnedState.js:39-41 | for non-negative damage, a stunned monster never loses less hp than one taking it unchanged |
| `States.Suffer` | states/AttackState.js:30-33 | hp becomes `max(0, hp - amount)`, and "fainted" is announced exactly when hp ends at 0 |
| `States.Restore` | states/AttackState.js:37-42 | every state's heal adds and returns what fits under maxHp and announces it |
| `States.AttackState.constructor` | states/AttackState.js:11-14 | the state is bound to its monster |
| `States.AttackState.Attack` | states/AttackState.js:18-22 | hits the target once with `floor(attack * 1.5)` and returns that pre-mitigation amount |
| `States.AttackState.Defend` | states/AttackState.js:24-27 | as written, `DefendState` is not in scope, so the call throws a ReferenceError |
| `States.AttackState.DefendResolved` | states/AttackState.js:24-27 | intended: switches the monster to the defend state, leaves hp alone and returns 0 |
| `States.AttackState.TakeDamage` | states/AttackState.js:29-35 | damage passes through unchanged; hp clamps at 0 and the damage is returned |
| `States.AttackState.Heal` | states/AttackState.js:37-42 | clamps at maxHp and returns the amount added |
| `States.DefendState.constructor` | states/DefendState.js:11-14 | the state is bound to its monster |
| `States.DefendState.Attack` | states/DefendState.js:18-21 | as written, `AttackState` is not in scope, so the call throws a ReferenceError |
| `States.DefendState.AttackResolved` | states/DefendState.js:18-21 | intended: switches to the attack state first, then attacks exactly as the attack state does |
| `States.DefendState.Defend` | states/DefendState.js:23-26 | announces "already defending" and returns 0, with hp and state unchanged |
| `States.DefendState.TakeDamage` | states/DefendState.js:28-35 | applies and returns `floor(damage / 2)`, clamping hp at 0 |
| `States.DefendState.Heal` | states/DefendState.js:37-42 | clamps at maxHp and returns the amount added |
| `States.StunnedState.constructor` | states/StunnedState.js:12-15 | a fresh stun has two turns left |
| `States.StunnedState.Refuse` | states/StunnedState.js:20-25 | each refused action counts down by exactly one and restores the attack state once the count reaches 0 or below |
| `States.StunnedState.Recover` | states/StunnedState.js:22-25 | the end of a stun: the monster is back in the attack state, and its observers hear the state change and then the recovery message |
| `States.StunnedState.Attack` | states/StunnedState.js:19-27 | deals no damage, returns 0 and counts down |
| `States.StunnedState.Defend` | states/StunnedState.js:29-37 | returns 0 and counts down |
| `States.StunnedState.TakeDamage` | states/StunnedState.js:39-46 | applies and returns `floor(damage * 1.5)`, at least the damage for non-negative input, clamping hp at 0 |
| `States.StunnedState.Heal` | states/StunnedState.js:48-53 | clamps at maxHp and returns the amount added |
| `States.StunWearsOffOnSecondAttempt` | states/StunnedState.js:14-37 | from a fresh stun, the first action attempt leaves the monster stunned and the second returns it to the attack state, with no hp change |
| `Strategies.Effectiveness` | strategies/FireAttack.js:21-25 | the type multiplier is always 2, 1 or 0.5 |
| `Strategies.Variation` | strategies/FireAttack.js:28 | the random variation lies in [0.8, 1.2) |
| `Strategies.CalculateDamage` | strategies/FireAttack.js:17-30 | for non-negative raw damage the result lies between the floors of 80% and 120% of raw times multiplier, and it is non-negative (same formula in the other three strategies) |
| `Strategies.MoreEffectiveNeverWeaker` | strategies/FireAttack.js:21-29 | with attacker and variation fixed, a larger multiplier never deals less damage |
| `Strategies.FireTriangle` | strategies/FireAttack.js:21-29 | fire deals at least as much to grass as to a neutral type, and at least as much to a neutral type as to water |
| `Strategies.WaterTriangle` | strategies/WaterAttack.js:21-29 | water: vs fire >= vs neutral >= vs grass |
| `Strategies.GrassTriangle` | strategies/GrassAttack.js:21-29 | grass: vs water >= vs neutral >= vs fire |
| `Strategies.NormalIgnoresType` | strategies/NormalAttack.js:23-30 | a normal attack's damage does not depend on the target's type and is `floor((13 + attack) * variation)` |
| `Strategies.FireOnGrassScenario` | strategies/FireAttack.js:17-30 | attack 20 fire vs grass at variation 1.0 computes 70, which leaves a 90-hp, 12-defense monster at 32 |
| `Strategies.Attack` | strategies/FireAttack.js:36-45 | a missing attacker or target throws with nothing changed; otherwise the target's takeDamage runs once with the computed damage and the attacker's observers hear that computed damage |
| `Commands.AttackCommand.constructor` | commands/AttackCommand.js:11-14 | the command keeps the strategy it was given (a const field, so execute cannot change it) |
| `Commands.AttackCommand.Execute` | commands/AttackCommand.js:16-18 | exactly the strategy's attack on the given pair, with no checks of its own |
| `Commands.AttackCommand.Undo` | commands/Command.js:20-22 | undo is not overridden and throws |
| `Subjects.Deliverable` | observer/Subject.js:27-33 | at most one delivery per listed observer, each carrying the message to a listed observer that has an update function |
| `Subjects.DeliverableAllRespond` | observer/Subject.js:27-33 | when every observer has update, notifying is a plain in-order broadcast |
| `Subjects.DeliverableAppend` | observer/Subject.js:27-33 | notifying a concatenated list notifies the first part, then the second |
| `Subjects.DeliveredOnce` | observer/Subject.js:17-33 | in a duplicate-free list each observer with update hears a message exactly once, and nobody else hears it |
| `Subjects.Subject.constructor` | observer/Subject.js:13-15 | starts with no observers |
| `Subjects.Subject.AddObserver` | observer/Subject.js:17-21 | a listed observer is not added again; an unlisted one is appended; the list stays duplicate-free |
| `Subjects.Subject.RemoveObserver` | observer/Subject.js:23-25 | removes the observer, keeps the others in order, stays duplicate-free |
| `Subjects.Subject.NotifyObservers` | observer/Subject.js:27-33 | delivers in list order and skips observers without update |
| `CorePlayer.Player.constructor` | core/Player.js:16-21 | empty roster, no active monster, a fresh empty subject |
| `CorePlayer.Player.AddMonster` | core/Player.js:24-30 | rejects null and members with their messages, leaving roster, subscriptions and notifications unchanged; otherwise appends, subscribes the player to the monster and notifies once |
| `CorePlayer.Player.RemoveMonster` | core/Player.js:32-38 | rejects null and non-members, leaving roster, subscriptions and notifications unchanged; otherwise removes exactly that monster, unsubscribes and notifies; activeMonster is left as it was |
| `CorePlayer.Player.SetActiveMonster` | core/Player.js:40-45 | rejects null and non-members; otherwise the monster becomes active and is announced |
| `CorePlayer.Player.SwitchMonster` | core/Player.js:47-53 | additionally rejects a fainted monster; on success activates it and answers true |
| `ObserverPlayer.Player.constructor` | observer/Player.js:11-15 | empty roster, no active monster |
| `ObserverPlayer.Player.AddMonster` | observer/Player.js:17-22 | appends (duplicates allowed); the monster becomes active when none is; active stays null or a member, and is null exactly when a null-free roster is empty |
| `ObserverPlayer.Player.RemoveMonster` | observer/Player.js:24-29 | removes every copy; a removed active monster is replaced by the first remaining one or null; the same invariant holds |
| `ObserverPlayer.Player.SetActiveMonster` | observer/Player.js:31-35 | activates a member and silently ignores anything else |
| `Battle.AnyAlive` | core/BattleContext.js:65-66 | true exactly when some monster of the roster has positive hp |
| `Battle.AllFainted` | core/BattleContext.js:71 | true exactly when every monster of the roster has hp at most 0 |
| `Battle.Ended` | core/BattleContext.js:64-68 | the battle has ended exactly when every monster of one roster has fainted; an empty roster counts as beaten |
| `Battle.BattleContext.CheckBattleEnd` | core/BattleContext.js:64-68 | true exactly when the player's or the enemy's roster has no monster with positive hp |
| `Battle.WinnerHasBeatenOpponent` | core/BattleContext.js:64-78 | once ended, the player is named winner if the enemy is wiped out (even if both are), and otherwise the player's roster has no living monster |
| `Battle.BattleContext.constructor` | core/BattleContext.js:15-21 | turn 0, empty log, no observers |
| `Battle.BattleContext.EndMessages` | core/BattleContext.js:70-78 | the winner line names the player exactly when every enemy monster has fainted, and is followed by the closing line |
| `Battle.BattleContext.AddObserver` | core/BattleContext.js:81-83 | appends, duplicates allowed |
| `Battle.BattleContext.RemoveObserver` | core/BattleContext.js:85-87 | removes every copy, keeping the rest in order |
| `Battle.BattleContext.NotifyObservers` | core/BattleContext.js:89-92 | appends the message to the log, then delivers it to each observer in order |
| `Battle.BattleContext.StartBattle` | core/BattleContext.js:26-31 | turn 0 and a log holding exactly the two start messages, both broadcast |
| `Battle.BattleContext.EndBattle` | core/BattleContext.js:70-78 | appends and broadcasts the winner line, then the closing line |
| `Battle.BattleContext.NextTurn` | core/BattleContext.js:53-62 | after the end it throws with turn, log and deliveries unchanged; otherwise counts one turn and logs its end, and never ends the battle itself |
| `Battle.Act` | core/BattleContext.js:38-40 | one side acts only when its active monster exists and is alive; a missing command or target throws before anything changes |
| `Battle.Exchange` | core/BattleContext.js:37-45 | player first, then enemy if the first half did not throw and the enemy is still alive; each monster's hp changes only by the other's hit, and each monster's observers hear, in order, its own attack report and the damage it took, and nothing else |
| `Battle.BattleContext.ExecuteTurn` | core/BattleContext.js:33-51 | turn count rises by exactly one and the turn line is logged; the exchange follows, fixing both active monsters' hp and notifications as `Battle.Exchange` does; the end lines are logged exactly when no action threw and a side is wiped out |
| `Battle.BattleContext.CloseTurn` | core/BattleContext.js:47-50 | endBattle runs exactly when the turn completed and the battle has ended |
| `Battle.BattleContext.ExecuteCommand` | core/BattleContext.js:99-112 | throws on a null command or a missing active monster, with both active monsters' hp and notifications unchanged; otherwise the chosen side attacks the other side |
| `BattleLog.EntriesOfTurn` | decorators/BattleLogger.js:33-35 | the result holds only entries of that turn, all of them, drawn from the log |
| `BattleLog.EntriesOfTurnAppend` | decorators/BattleLogger.js:25-35 | filtering by turn distributes over appending, so each turn's entries stay in insertion order |
| `BattleLog.BattleLogger.constructor` | decorators/BattleLogger.js:9-12 | keeps the battle and starts with an empty log |
| `BattleLog.BattleLogger.CurrentTurn` | decorators/BattleLogger.js:23 | an entry's turn is null exactly when the logger has no battle |
| `BattleLog.BattleLogger.LogBattleEvent` | decorators/BattleLogger.js:18-27 | appends and returns exactly one entry with the event and the current turn, which also becomes the last entry of that turn |
| `BattleLog.BattleLogger.Update` | decorators/BattleLogger.js:14-16 | update is logBattleEvent |
| `BattleLog.BattleLogger.GetBattleLogs` | decorators/BattleLogger.js:29-31 | the whole log in logging order: every entry is found again by asking for its own turn, and no turn has more entries than the log |
| `BattleLog.BattleLogger.GetLogsByTurn` | decorators/BattleLogger.js:33-35 | every logged entry of that turn and nothing else |
| `BattleLog.BattleLogger.ClearLogs` | decorators/BattleLogger.js:37-39 | empties the log |
| `Emphasis.Emphasize` | decorators/EmphasizedLogger.js:19-31 | the first rule that matches decides the frame: a victory ("won the battle") gets 🎉; otherwise a message with both "took" and "damage" gets 💥; otherwise "healed" gets 💚; otherwise "is now in" gets ✨; each frame is produced exactly when its rule is the first to match, and any other message comes back unchanged |
| `Emphasis.EmphasizeKeepsMessage` | decorators/EmphasizedLogger.js:19-31 | the emphasized output always contains the original message |
| `Emphasis.EmphasizeChangesIffEmphatic` | decorators/EmphasizedLogger.js:19-31 | a message comes back unchanged exactly when no keyword rule applies; otherwise it gains two marks and two spaces |
| `Emphasis.AttackReportsExplode` | decorators/EmphasizedLogger.js:23-24 | every strategy attack report that is not a victory message is framed with the explosion mark |
| `Emphasis.EmphasizedLogger.constructor` | decorators/EmphasizedLogger.js:10-12 | wraps the given logger |
| `Emphasis.EmphasizedLogger.Update` | decorators/EmphasizedLogger.js:14-17 | forwards exactly one emphasized message to the wrapped logger |
| `Factory.GetBaseStats` | factories/MonsterFactory.js:30-38 | the table entry for a known type, the normal stats for any other |
| `Factory.LevelMultiplier` | factories/MonsterFactory.js:16 | the multiplier is 1 exactly at level 1, at least 1 from level 1 on, and below 1 under it |
| `Factory.ScaleStat` | factories/MonsterFactory.js:21-23 | the scaled stat is the largest whole number not above base times the level multiplier |
| `Factory.LevelOneKeepsBase` | factories/MonsterFactory.js:16-23 | at level 1 every stat equals its base |
| `Factory.ScaleStatMonotone` | factories/MonsterFactory.js:16-23 | a non-negative stat never shrinks as the level rises |
| `Factory.ScaleStatAtLeastBase` | factories/MonsterFactory.js:16-23 | from level 1 on, a non-negative stat is at least its base |
| `Factory.PickIndex` | factories/MonsterFactory.js:49-50 | a random draw always picks a valid index |
| `Factory.GenerateName` | factories/MonsterFactory.js:40-53 | one of the type's three prefixes followed by one of the five suffixes; a TypeError exactly for a type without names |
| `Factory.FallbackStatsButNoName` | factories/MonsterFactory.js:37-49 | an unknown type gets the normal stats yet still cannot be named |
| `Factory.GenerateNameWithFallback` | factories/MonsterFactory.js:40-53 | intended: an unknown type is named like a normal monster, and a known type as before |
| `Factory.CreateMonster` | factories/MonsterFactory.js:14-28 | scaled stats, a generated name, full hp and no state; a TypeError for a type without names |
| `Draft.Classify` | PokeRogue.js:195-203 | stunned exactly when hp <= 0, defending exactly when 0 < hp < 30, attacking exactly when hp >= 30 |
| `Draft.ClassifyMonotone` | PokeRogue.js:184-203 | more hit points never give a weaker state |
| `Draft.HandleDamage` | PokeRogue.js:136-166 | the attack state deals the strategy's damage, the defend state a fixed 5, the stunned state nothing |
| `Draft.Monster.constructor` | PokeRogue.js:177-182 | a new monster starts in the attack state whatever its hp |
| `Draft.Monster.TakeDamage` | PokeRogue.js:184-193 | subtracts without clamping, then the state is `Classify(hp)` |
| `Draft.Monster.UpdateState` | PokeRogue.js:195-203 | the state becomes `Classify(hp)` and hp is untouched, so a second call changes nothing |
| `Draft.Monster.SetStrategy` | PokeRogue.js:214-216 | replaces the strategy |
| `Draft.Monster.SetState` | PokeRogue.js:218-221 | replaces the state |
| `Draft.Monster.PerformAttack` | PokeRogue.js:207-210 | refreshes the state from hp first, then the target loses exactly that state's handle damage |
| `Draft.Player.constructor` | PokeRogue.js:319-323 | name, hp and no observers |
| `Draft.Player.Subscribe` | PokeRogue.js:300-302 | appends, duplicates allowed |
| `Draft.Player.Unsubscribe` | PokeRogue.js:306-308 | removes every copy in order |
| `Draft.Player.Notify` | PokeRogue.js:312-314 | delivers to each observer in order |
| `Draft.Player.TakeDamage` | PokeRogue.js:327-330 | subtracts without clamping and notifies once with the remaining hp |
| `Draft.StrategyAttack` | PokeRogue.js:22-60 | subtracts the strategy's fixed damage (10, 15, 13, 12) from the target's hp, unclamped |
| `Draft.AttackCommand.constructor` | PokeRogue.js:81-84 | keeps the strategy |
| `Draft.AttackCommand.Execute` | PokeRogue.js:88-90 | runs the strategy on the target |
| `Draft.BattleContext.constructor` | PokeRogue.js:98-100 | starts without a command |
| `Draft.BattleContext.SetCommand` | PokeRogue.js:104-106 | replaces the current command |
| `Draft.BattleContext.ExecuteCommand` | PokeRogue.js:110-114 | a no-op without a command; otherwise the command's fixed damage is dealt |
| `Draft.Species` | PokeRogue.js:233-245 | exactly three kinds are known |
| `Draft.Create` | PokeRogue.js:231-248 | Charmander, Squirtle and Bulbasaur give hp 100/105/110 with fire/water/grass strategies in the attack state; any other kind throws "Invalid monster type" |

## Left out

- Console output is not modelled. This covers `observer/ConsoleLogger.js`, both
  `Player.update` methods, `EmphasizedLogger.log`, the draft's `setState`,
  strategy and state messages, the factory's creation message, and the
  draft's template-method logger and decorator classes. It also covers the
  strategies' `console.log` fallback for an attacker without `notifyObservers`,
  because a modular `Monster` always has that method.
- What an observer does with a message is not modelled; only the delivery is.
- In `Monster` and `BattleContext`, `notifyObservers` calls `observer.update`
  without the `typeof` check that `Subject` makes. An observer without
  `update` would throw there; the model assumes every observer has one.
- Subjects.Subject.NotifyObservers: which observers have an `update` function
  is passed in as a set. It is not a property of stored objects.
- Randomness is not modelled as a generator. `Math.random` is a parameter of
  `CalculateDamage`, `GenerateName` and `CreateMonster`.
- String lengths count Unicode code points, not UTF-16 code units as JavaScript's `.length` does. So `Emphasis.EmphasizeChangesIffEmphatic` says an emphasized message grows by 4, where JavaScript would count 6 for the 🎉 frame.
- Floating point is modelled with exact rationals. IEEE rounding of the
  products before `Math.floor` is not modelled, for example `0.8 + r * 0.4`
  or `1 + (level - 1) * 0.1`.
- Timestamps of log entries are not modelled, because they come from the
  clock.
- The stat, name and draft factory tables are modelled by their own keys
  only. JavaScript object lookup would also find inherited keys such as
  `constructor`.
- The monster's `state` field holds a state object in the source. The model
  records only which state class it is (`StateKind`).
- The state objects are separate classes bound to their monster. How a
  monster dispatches through its state object is not part of the source
  either.
- The abstract bases `MonsterState`, `AttackStrategy` and `Command` and their
  throwing stubs are left out. The strategies are a datatype, and only
  `Command.undo` is kept, because `AttackCommand` does not override it.
- `core/Player.js` extends `Subject`. The model gives it a `Subject` field
  (`events`) instead of inheritance.
- Battle.BattleContext.ExecuteTurn: requires that the two active monsters are
  different objects. A monster that attacks itself within one turn is not
  modelled.
- Battle.Exchange: requires that the two monsters it is given are different
  objects unless the player's is null. A monster that attacks itself within
  one turn is not modelled.
- The draft's duck-typed targets are limited to its `Monster` and `Player`
  (the `Actor` datatype). Null attackers or targets are not modelled in the
  draft.
- `getBattleLogs` returns the logger's own array, which callers could then
  mutate. The model returns the log as a value.
- Default parameters are explicit arguments: `isPlayer = true` and
  `level = 1`. Levels are integers.
- `main.js`, `test/monster.test.js` and the draft's demo code at the end of
  `PokeRogue.js` are not part of this model. The test expects methods and
  state-based damage reduction that `core/Monster.js` does not have.

## Findings

| source | as written | input that shows it | evidently intended | confidence | as-written member | corrected member |
|---|---|---|---|---|---|---|
| states/AttackState.js:25 | `defend()` builds a `DefendState`, but the file never requires it, so evaluating the name throws a ReferenceError | any call of `defend()` on an attack state | switch the monster to a defend state and return 0 | high, not executed | `States.AttackState.Defend` | `States.AttackState.DefendResolved` |
| states/DefendState.js:19 | `attack(target)` builds an `AttackState`, but the file never requires it, so the call throws a ReferenceError | any call of `attack(target)` on a defend state | switch to the attack state, then attack as it does | high, not executed | `States.DefendState.Attack` | `States.DefendState.AttackResolved` |
| factories/MonsterFactory.js:49 | `getBaseStats` falls back to the normal stats, but `generateName` indexes the prefix table without a fallback and throws a TypeError | `createMonster("electric")` | name the monster with the normal prefixes, as its stats already are | medium, not executed | `Factory.FallbackStatsButNoName` | `Factory.GenerateNameWithFallback` |
