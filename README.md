# Buckshot roulette in Dafny

A model of the game engine in `buckshot_roulette_cli.py`, a console
version of "Buckshot Roulette". The player and the AI-driven dealer take
turns with a shotgun. Its magazine holds a shuffled mix of live and blank
shells. Each round, both actors are dealt 2 to 4 distinct items. On a turn,
the actor to move may use items and then shoots either itself or the
opponent:

- A live shell costs the target HP.
- A blank fired at oneself keeps the turn.
- Every other shot passes the turn.
- An empty magazine starts a new round.
- The game ends when an actor's HP drops to 0 or below (a sawn-off live
  shot can take it to -1).

The model has two layers.

- **Rules on values.** The shotgun is a `Magazine` (the shells and the
  cursor). An actor is an `ActorState`. The whole table is a `World` (both
  actors, the gun, whose turn it is and the round number). The eight item
  effects, the dealer's heuristic, `resolve_shot`, the item phase and one
  call of `turn_loop` are functions on these values. The lemmas about the
  game are stated about them.
- **Objects.** The classes `Shells.Shotgun`, `Actors.Actor` and
  `Engine.Game` are the source's mutable objects, updated in place. Each
  method is proved to make exactly the transition the value-level rule
  describes: `State() == Rule(old(State()))`. Where the source raises an
  exception, the rule returns `Crash` and the method returns `false`.

Randomness and console input arrive as parameters:

- **Shuffle.** The draws of `random.shuffle` are CPython's Fisher–Yates
  indices (`Shells.ShuffleDraws`).
- **Dealing.** `random.randint` picks the number of shells and the number
  of live shells (`Rounds.Reload`). Each `random.sample` of the catalogue
  is the hand it returns (`Catalog.IsHand`: distinct items, size within the
  configured range).
- **Coin flips.** Each `random.random() < q` is a boolean (`Policy.Flips`).
- **Bounded draws.** The Burner Phone's `random.randint(1, rem - 1)` and
  the dealer's `random.choice` during Adrenaline are naturals reduced
  modulo their range.
- **Human answers.** Each answer to "Use an item before shooting?" is an
  inventory position (`Rounds.HumanUse`). When the answers run out, that
  stands for ENTER. Each aim answer is a boolean (`TurnInput.shootSelf`).

The central invariant is `Rounds.Settled`, which holds between turns:

- the gun's cursor is within the tube;
- every actor's knowledge is accurate: a known chambered shell is the
  chambered shell, and every Burner Phone record for a position strictly
  ahead of the cursor names the shell there;
- nobody knows the chambered shell;
- no HP is above its maximum;
- no Hand Saw is left armed.

The game opens settled (`Rounds.OpeningIsSettled`). Every turn keeps it
settled (`Rounds.TurnKeepsSettled`), and so does any sequence of turns
(`Rounds.PlayedKeepsSettled`). A shot hurts only its target, so the game
never ends with both actors dead, and the winner announced is the one
still alive.

Some behaviours of the code are worth stating outright:

- **A human can crash the game.** `Shotgun.fire` raises `RuntimeError` on
  an empty tube (buckshot_roulette_cli.py:62-63). Beer is a no-op only when
  the gun is already empty (:158-160). So the human can rack the last shell
  with Beer, and the shot that follows in `turn_loop` fires an empty gun
  (`Rounds.HumanBeerCanEmptyTheGun`). A Magnifying Glass used after that
  Beer raises `IndexError` from `peek_current` (:58) instead
  (`Rounds.HumanGlassAfterBeerCrashes`); the model records it as
  `Crash(PeekEmpty)`. The dealer's heuristic only drinks Beer with more
  than two shells left (:371), so the dealer's turns never raise
  (`Rounds.AiTurnNeverCrashes`).
- **A human never steals with Adrenaline.** The comment at :225 says the
  player chooses which item to steal. The code asks
  `prompt_choose_item(target)` (:229), and that returns `None` for an
  AI-driven actor (:299-300). The target of a human's item is always the
  dealer, so the steal is always cancelled (:230-232), whatever is typed.
  The second `pop_item` (:233) after a human's choice never runs.
- **Burner Phone records can go stale.** The Inverter updates only the
  user's knowledge of the chambered shell (:186-190). A record made by the
  Burner Phone for the position the gun is racked onto is not updated
  when that shell is flipped (`Effects.InverterCanLeaveStaleRecord`). The
  source never reads `known_positions` after writing it (:205), so a
  stale record changes no play. The invariant therefore covers only the
  records strictly ahead of the cursor.

## Model

| member | source | states |
|---|---|---|
| Shells.Flip | buckshot_roulette_cli.py:76-78 | inverting a shell always changes it |
| Shells.Count | buckshot_roulette_cli.py:55 | `list.count` never exceeds the list's length (its meaning: CountIsMultiplicity) |
| Shells.CountIsMultiplicity | buckshot_roulette_cli.py:52-55 | `list.count` of a shell kind equals its multiplicity in the list |
| Shells.CountsCover | buckshot_roulette_cli.py:52-55 | the live and blank counts of a list add up to its length: every shell is one or the other |
| Shells.RepeatCounts | buckshot_roulette_cli.py:45 | `[x] * n` holds exactly `n` shells of kind `x` and none of the other kind |
| Shells.Repeat | buckshot_roulette_cli.py:45 | `[x] * n` has length `n` and holds `x` at every position |
| Shells.Swap | buckshot_roulette_cli.py:46 | one exchange of the shuffle puts `s[j]` at `i` and `s[i]` at `j` and leaves every other position alone |
| Shells.Shuffled | buckshot_roulette_cli.py:46 | the Fisher–Yates shuffle keeps the length, for any legal draws |
| Shells.SwapPermutes | buckshot_roulette_cli.py:46 | one exchange of `random.shuffle` keeps the length and the multiset of shells |
| Shells.ShuffledPermutes | buckshot_roulette_cli.py:46 | the whole Fisher–Yates shuffle, for any draws, is a permutation of its input |
| Shells.ShuffledCounts | buckshot_roulette_cli.py:46 | shuffling changes neither the live count nor the blank count |
| Shells.UnshuffledCounts | buckshot_roulette_cli.py:44-45 | the list built before the shuffle holds `live_count` live and `n - live_count` blank shells |
| Shells.Unshuffled | buckshot_roulette_cli.py:44-45 | the list before the shuffle holds exactly `n` shells |
| Shells.Loaded | buckshot_roulette_cli.py:40-47 | `Shotgun.load` gives a consistent gun of `n` shells with the cursor at 0 |
| Shells.LoadedInvariant | buckshot_roulette_cli.py:40-47 | a freshly loaded gun has its cursor at 0, holds between `min_shells` and `max_shells` shells, and holds exactly `live_count` live shells, at least one live and at least one blank |
| Shells.Magazine.CountsRemaining | buckshot_roulette_cli.py:52-55 | the live and blank counts of the remaining shells add up to `remaining()` |
| Shells.Magazine.Remaining | buckshot_roulette_cli.py:49-50 | `remaining()` lies between 0 and the tube's length, and is 0 exactly when the gun is empty |
| Shells.Magazine.PeekCurrent | buckshot_roulette_cli.py:57-58 | the chambered shell is of a kind `counts_remaining()` counts at least once |
| Shells.Magazine.Fired | buckshot_roulette_cli.py:60-66 | firing keeps the tube, advances the cursor by one and leaves one shell fewer |
| Shells.Magazine.Inverted | buckshot_roulette_cli.py:72-78 | inverting keeps the cursor and the tube's length, and changes nothing on an empty gun |
| Shells.FiredConsumesOne | buckshot_roulette_cli.py:60-70 | firing or ejecting keeps the tube, leaves one shell fewer, and lowers exactly the count of the fired shell's kind by one |
| Shells.InvertedFlipsOnlyCurrent | buckshot_roulette_cli.py:72-78 | inverting is a no-op on an empty gun; otherwise it flips the chambered shell only, leaves every other position and the cursor alone, and moves one shell between the live and blank counts |
| Shells.Shotgun.Load | buckshot_roulette_cli.py:40-47 | the new shotgun holds the load the draws determine (see LoadedInvariant) |
| Shells.Shotgun.Remaining | buckshot_roulette_cli.py:49-50 | the number of shells at or after the cursor |
| Shells.Shotgun.CountsRemaining | buckshot_roulette_cli.py:52-55 | the counts of live and blank shells in `shells[index:]`, which add up to `remaining()` |
| Shells.Shotgun.PeekCurrent | buckshot_roulette_cli.py:57-58 | the chambered shell, callable only when one is chambered |
| Shells.Shotgun.Fire | buckshot_roulette_cli.py:60-66 | returns the chambered shell and advances the cursor by one; the empty case is excluded by the requires, and callers turn it into `Crash(FireEmpty)` |
| Shells.Shotgun.EjectCurrent | buckshot_roulette_cli.py:68-70 | the same transition and result as `Fire` |
| Shells.Shotgun.InvertCurrent | buckshot_roulette_cli.py:72-78 | the chambered shell is flipped in place, and nothing happens on an empty gun |
| Catalog.AllItemsListsEveryItem | buckshot_roulette_cli.py:82-90 | `list(ItemId)` lists every item |
| Catalog.CatalogSize | buckshot_roulette_cli.py:82-90 | the catalogue lists each of its items once |
| Catalog.DistinctCardinality | buckshot_roulette_cli.py:279 | a sample without repetition has as many distinct items as entries |
| Catalog.HandFitsCatalog | buckshot_roulette_cli.py:276-279 | a hand drawn by `random.sample(pool, k)` never holds more items than the catalogue |
| Actors.FirstIndex | buckshot_roulette_cli.py:140-142 | the position `list.remove` cuts from: it holds the item and no earlier position does |
| Actors.RemoveFirst | buckshot_roulette_cli.py:140-144 | `list.remove` as `pop_item` uses it: for a held item the multiset and the length drop by exactly one of that item; an item not held leaves the inventory alone |
| Actors.RemoveFirstKeepsOrder | buckshot_roulette_cli.py:140-142 | the occurrence removed is the first one, and every item before and after it keeps its original order |
| Actors.HealClamps | buckshot_roulette_cli.py:131-132 | healing by a non-negative amount never lowers HP: it gives exactly `hp + n` when that is within `max_hp`, and exactly `max_hp` otherwise; nothing else changes |
| Actors.HurtSubtracts | buckshot_roulette_cli.py:128-135 | `hurt(n)` subtracts exactly `n`, so the actor stays alive exactly when `hp > n` |
| Actors.ActorState.Healed | buckshot_roulette_cli.py:131-132 | `heal(n)` gives `min(max_hp, hp + n)`: never above the maximum, never above `hp + n`, and equal to one of them; nothing else changes |
| Actors.ActorState.Hurt | buckshot_roulette_cli.py:134-135 | `hurt(n)` subtracts exactly `n` from HP, with no floor; nothing else changes |
| Actors.ActorState.WithoutItem | buckshot_roulette_cli.py:140-144 | `pop_item(id)` takes one `id` out of the inventory's multiset, shortening it by one exactly when `id` was held; an absent `id` changes nothing, and no other field changes |
| Actors.ActorState.WithoutItemKeepsOrder | buckshot_roulette_cli.py:140-142 | `pop_item(id)` of a held item cuts out its first occurrence and keeps the rest of the inventory in order |
| Actors.ActorState.Forgetting | buckshot_roulette_cli.py:163-164 | forgetting the chambered shell clears only `current_known`, keeping the Burner Phone records |
| Actors.TakeThenPopRestores | buckshot_roulette_cli.py:137-144 | `take_item` followed by `pop_item` of the same item restores the inventory, up to order |
| Actors.Fresh | buckshot_roulette_cli.py:117-126 | a new actor has full HP, no items, no restraint, multiplier 1 and no knowledge |
| Actors.Actor.constructor | buckshot_roulette_cli.py:117-126 | the new actor's state is `Fresh(max_hp)` |
| Actors.Actor.IsAlive | buckshot_roulette_cli.py:128-129 | alive exactly when HP is positive |
| Actors.Actor.Heal | buckshot_roulette_cli.py:131-132 | the new state is the capped heal |
| Actors.Actor.Hurt | buckshot_roulette_cli.py:134-135 | the new state has `n` less HP |
| Actors.Actor.TakeItem | buckshot_roulette_cli.py:137-138 | the item is appended and nothing else changes |
| Actors.Actor.PopItem | buckshot_roulette_cli.py:140-144 | returns the item exactly when it was held and removes its first occurrence |
| Effects.Other | buckshot_roulette_cli.py:266-267 | the opponent is never the actor itself |
| Effects.UseMagnifyingGlass | buckshot_roulette_cli.py:148-152 | keeps the effect frame (the gun consistent, the cursor moved at most one step, turn, round, maxima, user's items, target's HP and multiplier unchanged, no HP lost or pushed past the maximum), leaves the target's items alone, and keeps accurate knowledge accurate |
| Effects.UseBeer | buckshot_roulette_cli.py:156-165 | keeps the effect frame and the target's items, and keeps accurate knowledge accurate even though the gun moves |
| Effects.UseHandcuffs | buckshot_roulette_cli.py:169-172 | keeps the effect frame and the target's items, and keeps accurate knowledge accurate (the restraint itself: HandcuffsRestrain) |
| Effects.UseHandSaw | buckshot_roulette_cli.py:176-179 | keeps the effect frame and the target's items, and keeps accurate knowledge accurate (the doubled multiplier: HandSawArms) |
| Effects.UseInverter | buckshot_roulette_cli.py:183-191 | keeps the effect frame and the target's items, and keeps accurate knowledge accurate even though the chambered shell changes. Accuracy covers the chambered shell and the records strictly ahead of the cursor; a record for the chambered position itself can go stale (InverterCanLeaveStaleRecord) |
| Effects.UseBurnerPhone | buckshot_roulette_cli.py:195-208 | keeps the effect frame and the target's items, and keeps accurate knowledge accurate: the recorded shell is the true one |
| Effects.UseCigarette | buckshot_roulette_cli.py:212-216 | keeps the effect frame: the user's HP never drops and never passes its maximum (the exact heal: CigaretteHeals) |
| Effects.HandcuffsRestrain | buckshot_roulette_cli.py:169-172 | Handcuffs set the target's `skip_next` and change nothing else: the user, the gun, the turn and the round are untouched |
| Effects.HandSawArms | buckshot_roulette_cli.py:176-179 | the Hand Saw sets the user's multiplier to 2 and changes nothing else |
| Effects.CigaretteHeals | buckshot_roulette_cli.py:212-216 | a Cigarette gives its user exactly one HP when below the maximum, and leaves HP at the maximum otherwise; nothing else changes |
| Effects.UseItem | buckshot_roulette_cli.py:323 | `ITEM_REGISTRY[id].use(game, user, other(user))`, also reached from Adrenaline at line 236: a Magnifying Glass on an empty gun always raises `PeekEmpty`, nothing else raises, and every item other than the glass and Adrenaline always succeeds. A success keeps the effect frame; the target's inventory only shrinks, and only through an AI's Adrenaline. Accurate knowledge stays accurate |
| Effects.MagnifyingGlassReveals | buckshot_roulette_cli.py:148-152 | the user learns the true chambered shell; the user's Burner Phone records, every other field of the user, the target, the gun, the turn and the round are unchanged |
| Effects.BeerRacks | buckshot_roulette_cli.py:156-165 | Beer does nothing on an empty gun; otherwise the new table is exactly the old one with the gun racked once and both actors forgetting the chambered shell, so HP, restraints, multipliers, inventories and records are kept |
| Effects.InverterLockstep | buckshot_roulette_cli.py:183-191 | the Inverter flips the chambered shell and the user's knowledge of it together (a known shell becomes its flip), so correct knowledge stays correct; the user's records and other fields, the target, the turn and the round are unchanged |
| Effects.BurnerPhoneReveals | buckshot_roulette_cli.py:195-208 | with at most one shell left it does nothing; otherwise it records the true shell at exactly one position strictly after the chambered one, and nothing else changes |
| Effects.AdrenalineSteals | buckshot_roulette_cli.py:220-236 | it does nothing when the target holds nothing or the user is human. The AI removes one held item from the target and uses it at once. Unless the stolen item is itself Adrenaline, the target ends exactly one of that item poorer |
| Effects.AdrenalineStealsAt | buckshot_roulette_cli.py:225-236 | the AI's steal, at the position `random.choice` draws: the target loses exactly that one occurrence, the stolen item's own effect follows with the remaining draws, and the target ends one of that item poorer unless it was Adrenaline |
| Effects.InverterCanLeaveStaleRecord | buckshot_roulette_cli.py:183-205 | Burner Phone, Beer, then Inverter leave a record for the chambered position that names the wrong shell, while the knowledge invariant holds throughout |
| Policy.PLive | buckshot_roulette_cli.py:349-350 | `p_live` is a probability whose numerator is the live count and whose denominator is `remaining()` when shells remain |
| Policy.Estimate | buckshot_roulette_cli.py:361-363 | after a Magnifying Glass that showed the shell, the estimate is certain (1 for live, 0 for blank); otherwise it is `p_live` from before any item |
| Policy.AiStep | buckshot_roulette_cli.py:353-378 | one pop-and-use of the heuristic changes nothing when its gate is false and otherwise removes exactly one `id` from the dealer's multiset of items; it never empties the gun and keeps the player's HP and inventory |
| Policy.AiInspect | buckshot_roulette_cli.py:352-363 | the Cigarette and Magnifying Glass checks leave the gun as it was, show the dealer the chambered shell when the glass check passes, and return as the estimate certainty after the glass or else `p_live` |
| Policy.AiMaybeUseItem | buckshot_roulette_cli.py:347-378 | the whole pass leaves a shell chambered, keeps the tube, the turn, the round, and the player's HP and inventory. The dealer only spends items and never loses HP. Accurate knowledge stays accurate. Its decisions are in AiPassDecides |
| Policy.AiPassDecides | buckshot_roulette_cli.py:352-378 | each of the five items is spent exactly when its check passes, with the gates stated on the table the pass starts from: the dealer's HP rises (by one) exactly when the Cigarette check passes, the glass shows the chambered shell, the multiplier becomes 2 exactly when the Hand Saw check passes at `p >= 0.6`, the gun is racked exactly when the Beer check passes, and the player is restrained exactly when the Handcuffs check passes; nothing else changes |
| Policy.AiInspectDecides | buckshot_roulette_cli.py:352-363 | the Cigarette and glass checks, each item spent exactly when its check passes, with the heal and the reveal; nothing else changes |
| Policy.AiSawDecides | buckshot_roulette_cli.py:365-368 | the Hand Saw is spent exactly when its check passes and then sets the dealer's multiplier to 2; the later checks see the same gates |
| Policy.AiFollowUpDecides | buckshot_roulette_cli.py:370-378 | Beer and Handcuffs are spent exactly when their checks pass; Beer racks the gun and clears the chambered-shell knowledge, Handcuffs restrain the player |
| Policy.AiPressDecides | buckshot_roulette_cli.py:365-378 | given what the Cigarette and Magnifying Glass checks left, the Hand Saw, Beer and Handcuffs checks in that order give the whole pass's outcome: each item is spent exactly when its check passes, with the saw doubling the damage, the Beer racking the gun and the Handcuffs restraining the player |
| Policy.Revealed | buckshot_roulette_cli.py:359-363 | when the glass will be used the estimate is at least 0.6 exactly when the chambered shell is live; otherwise it is `p_live` |
| Policy.AiChooseTarget | buckshot_roulette_cli.py:380-389 | a known live shell means the player, a known blank the dealer itself; otherwise the player exactly when at least half of the remaining shells are live and some remain |
| Policy.AiTargetsSafely | buckshot_roulette_cli.py:380-389 | a dealer with accurate knowledge shoots itself exactly when the chambered shell is blank. Without knowledge, it shoots the player exactly when at least half of the remaining shells are live |
| Rounds.ResolveShot | buckshot_roulette_cli.py:327-345 | one shell is fired and forgotten by both sides. A live shell costs the target exactly the shooter's multiplier and nobody else anything; a blank costs nothing. The shooter's multiplier is reset. The turn is kept exactly after a blank fired at oneself |
| Rounds.HandSawDoublesDamage | buckshot_roulette_cli.py:176-179 | Hand Saw then a live shot at the opponent costs the opponent exactly 2 HP, the shooter nothing, passes the turn and resets the multiplier to 1 |
| Rounds.DealItems | buckshot_roulette_cli.py:273-281 | each inventory becomes the dealt hand and each knowledge is reset; HP, flags, the gun, the turn and the round are untouched |
| Rounds.HandOff | buckshot_roulette_cli.py:432-433 | the turn passes to the opponent unless the shot keeps it; nothing else changes |
| Rounds.NewRound | buckshot_roulette_cli.py:403-410 | a new round raises the round number by one, loads exactly `Loaded` of the draws (a consistent gun of `n` shells with the cursor at 0), deals the hands, wipes knowledge and gives the player the move; HP, maxima, restraints and multipliers carry over, so a pending Handcuffs survives the reload |
| Rounds.HumanItemPhase | buckshot_roulette_cli.py:315-325 | the human's item loop raises only as a Magnifying Glass on an empty gun. It spends only the player's items, leaves the dealer's HP, items and multiplier alone, and keeps HP capped and knowledge accurate |
| Rounds.ShotTurn | buckshot_roulette_cli.py:412-436 | items, aim and shot leave a consistent gun, and only a human turn can raise |
| Rounds.TurnStep | buckshot_roulette_cli.py:391-436 | one call of `turn_loop` leaves a consistent gun, and only a human turn can raise |
| Rounds.Opening | buckshot_roulette_cli.py:252-263 | the opening table is in round 1 with the player to move, both actors at full HP and unrestrained, a consistent fresh load and the dealt hands |
| Rounds.FiringKeepsKnowledgeSound | buckshot_roulette_cli.py:328-331 | after a shot, knowledge of later positions stays accurate once the fired shell is forgotten |
| Rounds.OpeningIsSettled | buckshot_roulette_cli.py:252-263 | the game opens settled, in round 1, with the player to move, both at full HP, and each hand within the configured bounds |
| Rounds.TurnSkips | buckshot_roulette_cli.py:396-400 | a restrained actor loses only the restraint and the turn: its other fields, the opponent, the gun and the round are unchanged |
| Rounds.TurnReloads | buckshot_roulette_cli.py:403-410 | an empty gun starts the next round with exactly the drawn load (at least one live and one blank shell) and freshly drawn hands in bounds. Knowledge is wiped; HP, maxima, restraints and multipliers carry over; the player moves |
| Rounds.AiTurnNeverCrashes | buckshot_roulette_cli.py:412-436 | the dealer's turn never raises |
| Rounds.HumanBeerCanEmptyTheGun | buckshot_roulette_cli.py:412-436 | a human turn with one shell left and Beer used raises `RuntimeError` on the shot |
| Rounds.BeerThenGlassRaises | buckshot_roulette_cli.py:156-165 | in the item phase, Beer racking the only shell followed by a Magnifying Glass raises `IndexError` |
| Rounds.HumanGlassAfterBeerCrashes | buckshot_roulette_cli.py:412-414 | a human turn with one shell left and Beer then a Magnifying Glass raises in the item phase |
| Rounds.ShotSettles | buckshot_roulette_cli.py:327-345 | a shot from a table with accurate knowledge and no stray multiplier leaves it settled, one shell further on. It hurts only the target, and a shooter who keeps the turn has hurt nobody |
| Rounds.AiTurnSettles | buckshot_roulette_cli.py:412-436 | the dealer's shooting turn never raises, fires a shell and leaves the table settled. It costs HP to one side at most, and keeps the turn only if nobody lost HP |
| Rounds.HumanTurnSettles | buckshot_roulette_cli.py:412-436 | the player's shooting turn, unless it raises, fires a shell and leaves the table settled. It costs HP to one side at most, and keeps the turn only if nobody lost HP |
| Rounds.TurnShoots | buckshot_roulette_cli.py:412-436 | a turn that reaches the shot fires at least one shell within the same round, and keeps the turn only if nobody lost HP |
| Rounds.TurnKeepsSettled | buckshot_roulette_cli.py:391-436 | every call of `turn_loop` keeps the table settled and costs HP to one side at most |
| Rounds.Played | buckshot_roulette_cli.py:438-441 | the loop of `play` leaves a consistent gun |
| Rounds.PlayedKeepsSettled | buckshot_roulette_cli.py:438-447 | any run of turns from a settled table stays settled and never leaves both actors dead. The announced winner is alive and the loser is dead |
| Rounds.Winner | buckshot_roulette_cli.py:443-446 | no winner while both are alive; the player exactly when alive and the dealer is dead; the dealer exactly when the player is dead |
| Engine.Game.constructor | buckshot_roulette_cli.py:252-263 | the new game's state is `Opening` (see OpeningIsSettled) |
| Engine.Game.Other | buckshot_roulette_cli.py:266-267 | `other` returns the other actor, matching `Effects.Other` |
| Engine.Game.DealItems | buckshot_roulette_cli.py:273-281 | each inventory is replaced by its hand and each knowledge is reset; nothing else changes |
| Engine.Game.PromptChooseItem | buckshot_roulette_cli.py:298-312 | the AI, an actor with nothing in hand, and ENTER give `None` and change nothing. Otherwise the chosen item is returned and popped |
| Engine.Game.UseMagnifyingGlass | buckshot_roulette_cli.py:148-152 | the objects make the transition `Effects.UseMagnifyingGlass` |
| Engine.Game.UseBeer | buckshot_roulette_cli.py:156-165 | the objects make the transition `Effects.UseBeer` |
| Engine.Game.UseHandcuffs | buckshot_roulette_cli.py:169-172 | the objects make the transition `Effects.UseHandcuffs` |
| Engine.Game.UseHandSaw | buckshot_roulette_cli.py:176-179 | the objects make the transition `Effects.UseHandSaw` |
| Engine.Game.UseInverter | buckshot_roulette_cli.py:183-191 | the objects make the transition `Effects.UseInverter` |
| Engine.Game.UseBurnerPhone | buckshot_roulette_cli.py:195-208 | the objects make the transition `Effects.UseBurnerPhone` |
| Engine.Game.UseCigarette | buckshot_roulette_cli.py:212-216 | the objects make the transition `Effects.UseCigarette` |
| Engine.Game.UseItem | buckshot_roulette_cli.py:323 | the objects make the transition `Effects.UseItem`, returning false exactly where it raises |
| Engine.Game.UseAdrenaline | buckshot_roulette_cli.py:220-236 | the objects make the Adrenaline transition of `Effects.UseItem`; a human's steal goes through `PromptChooseItem` with whatever was typed and is cancelled because the target is the AI |
| Engine.Game.ResolveShot | buckshot_roulette_cli.py:327-345 | the objects and the returned flag match `Rounds.ResolveShot` |
| Engine.Game.AiUse | buckshot_roulette_cli.py:353-378 | the objects make the transition `Policy.AiStep` |
| Engine.Game.AiMaybeUseItem | buckshot_roulette_cli.py:347-378 | the objects make the transition `Policy.AiMaybeUseItem` |
| Engine.Game.AiInspect | buckshot_roulette_cli.py:349-363 | the objects and the returned estimate match `Policy.AiInspect` |
| Engine.Game.AiSawCheck | buckshot_roulette_cli.py:365-368 | on the objects, the Hand Saw check spends the saw exactly when `Policy.Saws` holds and then makes the step `Policy.AiStep` describes |
| Engine.Game.AiBeerCheck | buckshot_roulette_cli.py:370-373 | on the objects, the Beer check drinks exactly when `Policy.Drinks` holds and then makes the step `Policy.AiStep` describes |
| Engine.Game.AiCuffsCheck | buckshot_roulette_cli.py:375-378 | on the objects, the Handcuffs check restrains the player exactly when `Policy.Cuffs` holds and then makes the step `Policy.AiStep` describes |
| Engine.Game.AiChooseTarget | buckshot_roulette_cli.py:380-389 | the chosen actor is the side `Policy.AiChooseTarget` picks (see AiTargetsSafely) |
| Engine.Game.UseItemFlow | buckshot_roulette_cli.py:315-325 | the AI makes its one pass and never fails. The human's loop makes the transition `Rounds.HumanItemPhase`, returning false exactly where it raises |
| Engine.Game.HumanUseItems | buckshot_roulette_cli.py:319-325 | the prompt loop makes the transition `Rounds.HumanItemPhase` |
| Engine.Game.HumanUseOne | buckshot_roulette_cli.py:320-323 | the item at the answered position is popped from the player's hand and used against the dealer: the new state is exactly `Effects.UseItem` of the table with that item popped, and false exactly where that raises |
| Engine.Game.TurnLoop | buckshot_roulette_cli.py:391-436 | the objects make the transition `Rounds.TurnStep`, returning false exactly where it raises |
| Engine.Game.NewRound | buckshot_roulette_cli.py:403-410 | the new-round branch makes the transition `Rounds.NewRound` with a fresh shotgun |
| Engine.Game.ShotTurn | buckshot_roulette_cli.py:412-436 | items, aim and shot make the transition `Rounds.ShotTurn` |
| Engine.Game.Play | buckshot_roulette_cli.py:438-447 | the game loop makes the transition `Rounds.Played` and returns `Winner`, the player exactly when still alive |

## Left out

- Console output is not modelled. This covers `show_state`, every `print`, `Game.log` and the transcript list, and the item names and descriptions. They affect no game state.
- Console input becomes parameters. The parsing in `prompt_choose_item` and the aim prompt of `turn_loop` become an index (reduced modulo the inventory size, standing for the re-prompt loop that accepts only valid numbers) and a boolean.
- The `random` module, `Config.seed` and `random.seed` are not modelled; every draw is a parameter. No claim is made about the distributions (uniform shuffles, fair coins).
- `p_live` is a float in the source. Here it is an exact fraction, compared by cross-multiplication. The comparisons against 0.5 and 0.6 are made exactly, as the float comparisons intend.
- Exceptions that end the program (`IndexError`, `RuntimeError`) become `Crash` outcomes, or `false` from the methods. Raising itself, `KeyboardInterrupt` and the `__main__` entry point are not modelled.
- Engine.Game.Play runs at most one turn per input in `ts`, so an unbounded game is modelled as its finite prefixes.
- Shells.Shotgun.Fire requires a chambered shell instead of raising; the callers check `remaining()` first and model the raise as `Crash(FireEmpty)`.
- Shells.Shotgun.PeekCurrent requires a chambered shell instead of raising; `Effects.UseItem` models the raise as `Crash(PeekEmpty)`.
- Effects.UseItem's Adrenaline for a human user states the cancelled steal and does not model a human choosing an item from an AI target's inventory, because the source never asks the AI target.
- Configurations for which `random` raises `ValueError` are not modelled. `Rounds.ValidReload` admits only draws that succeed. It excludes `randint(1, n - 1)` with `n < 2` (`min_shells < 2`), `randint(lo, hi)` with `lo > hi`, and `random.sample` asking for more than the 8 items. The default `Config()` (2 to 8 shells, 2 to 4 items) never reaches them.
- Item effects take only the user. The source always passes `other(user)` as the target, so the target is never a free parameter.
- Python's object identity is modelled only as the two distinct actors of `Engine.Game`. An actor aliased elsewhere is not.
