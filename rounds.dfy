/**
 * The round and turn engine (`Game.deal_items`, `Game.resolve_shot`,
 * `Game.use_item_flow` and the logic of `Game.turn_loop`) as transitions of
 * the table.  Every random draw and every human answer arrives as input.
 */
module Rounds {
  import opened Wrappers
  import opened Shells
  import opened Catalog
  import opened Actors
  import opened Effects
  import opened Policy

  /** `Config`, without the seed (randomness arrives as input). */
  datatype Config = Config(
    minShells: int,
    maxShells: int,
    playerMaxHp: int,
    dealerMaxHp: int,
    itemsLo: int,
    itemsHi: int)

  /** `Config()`: 2 to 8 shells, 4 HP each, 2 to 4 items per actor per round. */
  const DefaultConfig: Config := Config(2, 8, 4, 4, 2, 4)

  /**
   * The draws of one reload: `n` and `live_count` for `Shotgun.load`, the
   * shuffle's draws, then each actor's `random.sample` of items.
   */
  datatype Reload = Reload(
    n: nat,
    liveCount: nat,
    draws: seq<nat>,
    playerHand: seq<ItemId>,
    dealerHand: seq<ItemId>)

  /** Draws that `random.randint`, `random.shuffle` and `random.sample` can produce under `c`. */
  predicate ValidReload(c: Config, d: Reload) {
    && c.minShells <= d.n <= c.maxShells
    && 1 <= d.liveCount <= d.n - 1
    && ShuffleDraws(d.draws, d.n)
    && IsHand(d.playerHand, c.itemsLo, c.itemsHi)
    && IsHand(d.dealerHand, c.itemsLo, c.itemsHi)
  }

  /** `deal_items`: each inventory replaced by its hand, each knowledge reset. */
  function DealItems(w: World, playerHand: seq<ItemId>, dealerHand: seq<ItemId>): (r: World)
    ensures r.player.inventory == playerHand && r.dealer.inventory == dealerHand
    ensures r.player.knowledge == Unknown && r.dealer.knowledge == Unknown
    ensures r.player.(inventory := w.player.inventory, knowledge := w.player.knowledge) == w.player
    ensures r.dealer.(inventory := w.dealer.inventory, knowledge := w.dealer.knowledge) == w.dealer
    ensures r.gun == w.gun && r.turn == w.turn && r.roundNo == w.roundNo
  {
    w.(player := w.player.(inventory := playerHand, knowledge := Unknown),
       dealer := w.dealer.(inventory := dealerHand, knowledge := Unknown))
  }

  /** The table after a shot, and whether the shooter keeps the turn. */
  datatype Shot = Shot(world: World, keepTurn: bool)

  /**
   * `resolve_shot`: fire the chambered shell, forget it on both sides; a
   * live shell costs the target the shooter's damage multiplier in HP; the
   * shooter's multiplier is back to 1 after any shot; the turn is kept only
   * after a blank fired at oneself.
   */
  function ResolveShot(w: World, shooter: Side, target: Side): (r: Shot)
    requires w.gun.Valid() && !w.gun.Empty()
    ensures r.world.gun == w.gun.Fired()
    ensures r.world.player.knowledge.currentKnown == None
    ensures r.world.dealer.knowledge.currentKnown == None
    ensures r.world.Get(shooter).dmgMult == 1
    ensures r.world.Get(Other(shooter)).dmgMult == w.Get(Other(shooter)).dmgMult
    ensures r.keepTurn <==> w.gun.PeekCurrent() == Blank && shooter == target
    ensures w.gun.PeekCurrent() == Live ==>
      r.world.Get(target).hp == w.Get(target).hp - w.Get(shooter).dmgMult
    ensures w.gun.PeekCurrent() == Live ==> r.world.Get(Other(target)).hp == w.Get(Other(target)).hp
    ensures w.gun.PeekCurrent() == Blank ==> r.world.player.hp == w.player.hp && r.world.dealer.hp == w.dealer.hp
    ensures forall s :: r.world.Get(s) == w.Get(s).(
      hp := r.world.Get(s).hp, dmgMult := r.world.Get(s).dmgMult,
      knowledge := w.Get(s).knowledge.(currentKnown := None))
    ensures r.world.turn == w.turn && r.world.roundNo == w.roundNo
  {
    var shell := w.gun.PeekCurrent();
    var fired := w.(gun := w.gun.Fired());
    var w1 := fired.Put(shooter, fired.Get(shooter).Forgetting());
    var w2 := w1.Put(Other(shooter), w1.Get(Other(shooter)).Forgetting());
    if shell == Live then
      var dmg := w2.Get(shooter).dmgMult;
      var hit := w2.Put(target, w2.Get(target).Hurt(dmg));
      Shot(hit.Put(shooter, hit.Get(shooter).(dmgMult := 1)), false)
    else
      assert shell == Blank;
      Shot(w2.Put(shooter, w2.Get(shooter).(dmgMult := 1)), shooter == target)
  }

  /** A human answer to "Use an item before shooting?": an inventory position, and a Burner Phone draw. */
  datatype HumanUse = HumanUse(pick: nat, phone: nat)

  /**
   * `use_item_flow` for the human: while the inventory is not empty and the
   * human does not decline (the answers run out), pop the chosen item and
   * apply it against the dealer.  `pick` is read modulo the inventory's
   * size, standing for the re-prompt loop that only accepts a valid number.
   */
  function HumanItemPhase(w: World, uses: seq<HumanUse>): (r: Outcome)
    requires w.gun.Valid()
    ensures r.Crash? ==> r.fault == PeekEmpty
    ensures r.Ok? ==>
      && r.world.gun.Valid() && |r.world.gun.shells| == |w.gun.shells|
      && w.gun.index <= r.world.gun.index
      && r.world.turn == w.turn && r.world.roundNo == w.roundNo
      && r.world.player.maxHp == w.player.maxHp && r.world.dealer.maxHp == w.dealer.maxHp
      && multiset(r.world.player.inventory) <= multiset(w.player.inventory)
      && r.world.dealer.inventory == w.dealer.inventory
      && r.world.dealer.hp == w.dealer.hp && r.world.dealer.dmgMult == w.dealer.dmgMult
      && (r.world.player.dmgMult == w.player.dmgMult || r.world.player.dmgMult == 2)
      && (HpCapped(w.player) ==> HpCapped(r.world.player) && w.player.hp <= r.world.player.hp)
      && (InformedFor(w, Player) ==> InformedFor(r.world, Player))
    decreases |uses|
  {
    var inv := w.player.inventory;
    if uses == [] || inv == [] then Ok(w)
    else
      var id := inv[uses[0].pick % |inv|];
      var popped := w.Put(Player, w.player.WithoutItem(id));
      assert id in inv;
      match UseItem(popped, id, Player, uses[0].phone, [])
      case Crash(f) => Crash(f)
      case Ok(w1) => HumanItemPhase(w1, uses[1..])
  }

  /** One prompt of the item phase: the picked item is popped and used, then the phase goes on. */
  lemma HumanItemPhaseUnfolds(w: World, uses: seq<HumanUse>)
    requires w.gun.Valid() && uses != [] && w.player.inventory != []
    ensures var id := w.player.inventory[uses[0].pick % |w.player.inventory|];
      var used := UseItem(w.Put(Player, w.player.WithoutItem(id)), id, Player, uses[0].phone, []);
      && (used.Crash? ==> HumanItemPhase(w, uses) == Crash(used.fault))
      && (used.Ok? ==> HumanItemPhase(w, uses) == HumanItemPhase(used.world, uses[1..]))
  {
  }

  /** The random draws and human answers one call of `turn_loop` may consume. */
  datatype TurnInput = TurnInput(
    reload: Reload,
    uses: seq<HumanUse>,
    shootSelf: bool,
    flips: Flips)

  /** The turn passes to the opponent unless the shot lets the shooter keep it. */
  function HandOff(shot: Shot, opp: Side): (r: World)
    ensures r.turn == if shot.keepTurn then shot.world.turn else opp
    ensures r.(turn := shot.world.turn) == shot.world
  {
    if shot.keepTurn then shot.world else shot.world.(turn := opp)
  }

  /**
   * A new round: the round number goes up, the gun is reloaded, items are
   * dealt, the player moves.  HP, maxima, restraints and multipliers carry
   * over, so Handcuffs applied before the reload still cost a turn.
   */
  function NewRound(w: World, d: Reload): (r: World)
    requires 1 <= d.liveCount <= d.n - 1 && ShuffleDraws(d.draws, d.n)
    ensures r.roundNo == w.roundNo + 1 && r.turn == Player
    ensures r.gun.Valid() && r.gun.index == 0 && |r.gun.shells| == d.n
    ensures r.player.inventory == d.playerHand && r.dealer.inventory == d.dealerHand
    ensures r.player.knowledge == Unknown && r.dealer.knowledge == Unknown
    ensures r.player.hp == w.player.hp && r.dealer.hp == w.dealer.hp
    ensures r.gun == Loaded(d.n, d.liveCount, d.draws)
    ensures r.player.(inventory := w.player.inventory, knowledge := w.player.knowledge) == w.player
    ensures r.dealer.(inventory := w.dealer.inventory, knowledge := w.dealer.knowledge) == w.dealer
  {
    var reloaded := w.(roundNo := w.roundNo + 1, gun := Loaded(d.n, d.liveCount, d.draws));
    DealItems(reloaded, d.playerHand, d.dealerHand).(turn := Player)
  }

  /**
   * Items, aim and one shot for the actor to move.  A human may rack the
   * last shell with Beer and then fire an empty gun, which raises.
   */
  function ShotTurn(w: World, t: TurnInput): (r: Outcome)
    requires w.gun.Valid() && !w.gun.Empty()
    ensures r.Ok? ==> r.world.gun.Valid()
    ensures r.Crash? ==> !IsAi(w.turn)
  {
    var actor := w.turn;
    var opp := Other(actor);
    if IsAi(actor) then
      var armed := AiMaybeUseItem(w, t.flips);
      Ok(HandOff(ResolveShot(armed, actor, AiChooseTarget(armed)), opp))
    else
      match HumanItemPhase(w, t.uses)
      case Crash(f) => Crash(f)
      case Ok(armed) =>
        if armed.gun.Empty() then Crash(FireEmpty)
        else Ok(HandOff(ResolveShot(armed, actor, if t.shootSelf then actor else opp), opp))
  }

  /**
   * One call of `turn_loop`: a pending skip is consumed and the turn handed
   * over; else an empty gun starts a new round; else items, aim and one shot.
   */
  function TurnStep(w: World, c: Config, t: TurnInput): (r: Outcome)
    requires w.gun.Valid() && ValidReload(c, t.reload)
    ensures r.Ok? ==> r.world.gun.Valid()
    ensures r.Crash? ==> !IsAi(w.turn)
  {
    var actor := w.turn;
    if w.Get(actor).skipNext then
      Ok(w.Put(actor, w.Get(actor).(skipNext := false)).(turn := Other(actor)))
    else if w.gun.Remaining() == 0 then
      Ok(NewRound(w, t.reload))
    else
      ShotTurn(w, t)
  }

  /** `Game.__init__`: fresh actors, round 1, a loaded gun, items dealt, the player to move. */
  function Opening(c: Config, d: Reload): (r: World)
    requires ValidReload(c, d)
    ensures r.roundNo == 1 && r.turn == Player
    ensures r.player.hp == r.player.maxHp == c.playerMaxHp && r.dealer.hp == r.dealer.maxHp == c.dealerMaxHp
    ensures r.gun.Valid() && r.gun.index == 0 && |r.gun.shells| == d.n
    ensures r.player.inventory == d.playerHand && r.dealer.inventory == d.dealerHand
    ensures !r.player.skipNext && !r.dealer.skipNext
  {
    var w := World(Fresh(c.playerMaxHp), Fresh(c.dealerMaxHp),
                   Loaded(d.n, d.liveCount, d.draws), Player, 1);
    DealItems(w, d.playerHand, d.dealerHand)
  }

  /**
   * How the table stands between two turns: a consistent gun, sound
   * knowledge, nobody knowing the chambered shell, nobody above maximum HP,
   * and no Hand Saw left armed.
   */
  predicate Settled(w: World) {
    && w.gun.Valid()
    && KnowledgeSound(w)
    && w.player.knowledge.currentKnown == None
    && w.dealer.knowledge.currentKnown == None
    && HpCapped(w.player) && HpCapped(w.dealer)
    && w.player.dmgMult == 1 && w.dealer.dmgMult == 1
  }

  /** Firing keeps the knowledge of shells further ahead accurate once the fired shell is forgotten. */
  lemma FiringKeepsKnowledgeSound(w: World, r: World)
    requires w.gun.Valid() && !w.gun.Empty() && KnowledgeSound(w)
    requires r.gun == w.gun.Fired()
    requires r.player.knowledge == w.player.knowledge.(currentKnown := None)
    requires r.dealer.knowledge == w.dealer.knowledge.(currentKnown := None)
    ensures KnowledgeSound(r)
  {
  }

  /** The game opens settled, with each hand within the configured bounds. */
  lemma OpeningIsSettled(c: Config, d: Reload)
    requires ValidReload(c, d)
    ensures var w := Opening(c, d);
      && Settled(w) && w.turn == Player && w.roundNo == 1
      && w.player.hp == c.playerMaxHp && w.dealer.hp == c.dealerMaxHp
      && c.itemsLo <= |w.player.inventory| <= c.itemsHi && |w.player.inventory| <= |AllItems|
      && c.itemsLo <= |w.dealer.inventory| <= c.itemsHi && |w.dealer.inventory| <= |AllItems|
  {
    LoadedInvariant(c.minShells, c.maxShells, d.n, d.liveCount, d.draws);
    HandFitsCatalog(d.playerHand, c.itemsLo, c.itemsHi);
    HandFitsCatalog(d.dealerHand, c.itemsLo, c.itemsHi);
  }

  /** A restrained actor only loses the restraint and the turn; nothing is fired and nothing else changes. */
  lemma TurnSkips(w: World, c: Config, t: TurnInput)
    requires w.gun.Valid() && ValidReload(c, t.reload)
    requires w.Get(w.turn).skipNext
    ensures var r := TurnStep(w, c, t);
      && r.Ok?
      && r.world.turn == Other(w.turn)
      && !r.world.Get(w.turn).skipNext
      && r.world.Get(w.turn) == w.Get(w.turn).(skipNext := false)
      && r.world.Get(Other(w.turn)) == w.Get(Other(w.turn))
      && r.world.gun == w.gun && r.world.roundNo == w.roundNo
      && r.world.Put(w.turn, w.Get(w.turn)).(turn := w.turn) == w
  {
  }

  /**
   * With the gun empty, a turn starts a new round: the round number goes up
   * by one, the gun holds a fresh load with at least one live and one blank
   * shell, both hands are redrawn within bounds, nobody knows anything, HP,
   * maxima, restraints and multipliers carry over, the player moves next and
   * nothing is fired.
   */
  lemma TurnReloads(w: World, c: Config, t: TurnInput)
    requires w.gun.Valid() && ValidReload(c, t.reload)
    requires !w.Get(w.turn).skipNext && w.gun.Remaining() == 0
    ensures var r := TurnStep(w, c, t);
      && r.Ok?
      && r.world.roundNo == w.roundNo + 1
      && r.world.turn == Player
      && r.world.gun.Valid() && r.world.gun.index == 0
      && c.minShells <= |r.world.gun.shells| <= c.maxShells
      && r.world.gun.CountsRemaining() == (t.reload.liveCount, t.reload.n - t.reload.liveCount)
      && 1 <= r.world.gun.CountsRemaining().0 && 1 <= r.world.gun.CountsRemaining().1
      && r.world.player.inventory == t.reload.playerHand
      && r.world.dealer.inventory == t.reload.dealerHand
      && c.itemsLo <= |r.world.player.inventory| <= c.itemsHi && |r.world.player.inventory| <= |AllItems|
      && c.itemsLo <= |r.world.dealer.inventory| <= c.itemsHi && |r.world.dealer.inventory| <= |AllItems|
      && r.world.player.knowledge == Unknown && r.world.dealer.knowledge == Unknown
      && r.world.player.hp == w.player.hp && r.world.dealer.hp == w.dealer.hp
      && r.world.gun == Loaded(t.reload.n, t.reload.liveCount, t.reload.draws)
      && r.world.player.skipNext == w.player.skipNext && r.world.dealer.skipNext == w.dealer.skipNext
      && r.world.player.maxHp == w.player.maxHp && r.world.dealer.maxHp == w.dealer.maxHp
      && r.world.player.dmgMult == w.player.dmgMult && r.world.dealer.dmgMult == w.dealer.dmgMult
  {
    var d := t.reload;
    LoadedInvariant(c.minShells, c.maxShells, d.n, d.liveCount, d.draws);
    HandFitsCatalog(d.playerHand, c.itemsLo, c.itemsHi);
    HandFitsCatalog(d.dealerHand, c.itemsLo, c.itemsHi);
  }

  /** The dealer's turns never raise: its item pass never empties the gun. */
  lemma AiTurnNeverCrashes(w: World, c: Config, t: TurnInput)
    requires w.gun.Valid() && ValidReload(c, t.reload)
    requires w.turn == Dealer
    ensures TurnStep(w, c, t).Ok?
  {
  }

  /**
   * A human turn can raise: with one shell left, Beer racks it and the shot
   * then fires an empty gun.
   */
  lemma HumanBeerCanEmptyTheGun(c: Config, t: TurnInput, player: ActorState, dealer: ActorState)
    requires ValidReload(c, t.reload)
    requires player.inventory == [Beer] && !player.skipNext
    requires t.uses == [HumanUse(0, 0)]
    ensures var w := World(player, dealer, Magazine([Live], 0), Player, 1);
      TurnStep(w, c, t) == Crash(FireEmpty)
  {
    var w := World(player, dealer, Magazine([Live], 0), Player, 1);
    var popped := w.Put(Player, w.player.WithoutItem(Beer));
    assert UseItem(popped, Beer, Player, 0, []) == Ok(UseBeer(popped, Player));
    assert HumanItemPhase(w, t.uses) == HumanItemPhase(UseBeer(popped, Player), []);
  }

  /**
   * Beer racks the only shell, so the Magnifying Glass picked next peeks
   * into an empty gun and raises.
   */
  lemma BeerThenGlassRaises(w: World)
    requires w.gun == Magazine([Live], 0) && w.player.inventory == [Beer, MagnifyingGlass]
    ensures HumanItemPhase(w, [HumanUse(0, 0), HumanUse(0, 0)]) == Crash(PeekEmpty)
  {
    var uses := [HumanUse(0, 0), HumanUse(0, 0)];
    var rest := [HumanUse(0, 0)];
    assert uses[1..] == rest;
    assert w.player.inventory[uses[0].pick % |w.player.inventory|] == Beer;
    HumanItemPhaseUnfolds(w, uses);
    var popped := w.Put(Player, w.player.WithoutItem(Beer));
    var racked := UseBeer(popped, Player);
    assert UseItem(popped, Beer, Player, 0, []) == Ok(racked);
    assert HumanItemPhase(w, uses) == HumanItemPhase(racked, rest);
    assert racked.gun.Empty() && racked.player.inventory == [MagnifyingGlass];
    assert racked.player.inventory[rest[0].pick % |racked.player.inventory|] == MagnifyingGlass;
    HumanItemPhaseUnfolds(racked, rest);
    var popped2 := racked.Put(Player, racked.player.WithoutItem(MagnifyingGlass));
    assert UseItem(popped2, MagnifyingGlass, Player, 0, []) == Crash(PeekEmpty);
  }

  /**
   * A human turn can also raise in its item phase: with one shell left,
   * Beer racks it and a Magnifying Glass then peeks into an empty gun.
   */
  lemma HumanGlassAfterBeerCrashes(c: Config, t: TurnInput, player: ActorState, dealer: ActorState)
    requires ValidReload(c, t.reload)
    requires player.inventory == [Beer, MagnifyingGlass] && !player.skipNext
    requires t.uses == [HumanUse(0, 0), HumanUse(0, 0)]
    ensures var w := World(player, dealer, Magazine([Live], 0), Player, 1);
      TurnStep(w, c, t) == Crash(PeekEmpty)
  {
    var w := World(player, dealer, Magazine([Live], 0), Player, 1);
    BeerThenGlassRaises(w);
    assert ShotTurn(w, t) == Crash(PeekEmpty);
  }

  /**
   * Hand Saw then a live shot at the opponent: the opponent loses two HP,
   * the turn passes, and the saw is spent.
   */
  lemma HandSawDoublesDamage(w: World, u: Side)
    requires w.gun.Valid() && !w.gun.Empty() && w.gun.PeekCurrent() == Live
    ensures var shot := ResolveShot(UseHandSaw(w, u), u, Other(u));
      && shot.world.Get(Other(u)).hp == w.Get(Other(u)).hp - 2
      && shot.world.Get(u).hp == w.Get(u).hp
      && shot.world.Get(u).dmgMult == 1
      && !shot.keepTurn
  {
    HandSawArms(w, u);
  }

  /**
   * A shot from a table with sound knowledge and no stray multiplier leaves
   * it settled, one shell further on; a shooter who keeps the turn has
   * cost nobody any HP.
   */
  lemma ShotSettles(armed: World, shooter: Side, target: Side)
    requires armed.gun.Valid() && !armed.gun.Empty() && KnowledgeSound(armed)
    requires HpCapped(armed.player) && HpCapped(armed.dealer)
    requires armed.Get(Other(shooter)).dmgMult == 1 && armed.Get(shooter).dmgMult >= 1
    requires armed.turn == shooter
    ensures var r := HandOff(ResolveShot(armed, shooter, target), Other(shooter));
      && Settled(r)
      && r.gun.index == armed.gun.index + 1 && r.roundNo == armed.roundNo
      && (r.turn == shooter ==> r.player.hp == armed.player.hp && r.dealer.hp == armed.dealer.hp)
      && r.Get(Other(target)).hp == armed.Get(Other(target)).hp
  {
    FiringKeepsKnowledgeSound(armed, ResolveShot(armed, shooter, target).world);
  }

  /**
   * The dealer's turn, from a settled table, never raises, fires a shell,
   * ends settled, costs HP to one side at most, and passes the turn unless
   * nobody lost HP.
   */
  lemma AiTurnSettles(w: World, c: Config, t: TurnInput)
    requires Settled(w) && ValidReload(c, t.reload)
    requires !w.Get(w.turn).skipNext && w.gun.Remaining() > 0 && w.turn == Dealer
    ensures var r := TurnStep(w, c, t);
      && r.Ok? && Settled(r.world)
      && r.world.gun.index > w.gun.index && r.world.roundNo == w.roundNo
      && (r.world.player.hp >= w.player.hp || r.world.dealer.hp >= w.dealer.hp)
      && (r.world.turn == w.turn ==>
            r.world.player.hp >= w.player.hp && r.world.dealer.hp >= w.dealer.hp)
  {
    var armed := AiMaybeUseItem(w, t.flips);
    ShotSettles(armed, Dealer, AiChooseTarget(armed));
  }

  /**
   * The player's turn, from a settled table, unless it raises: fires a
   * shell, ends settled, costs HP to one side at most, and passes the turn
   * unless nobody lost HP.
   */
  lemma HumanTurnSettles(w: World, c: Config, t: TurnInput)
    requires Settled(w) && ValidReload(c, t.reload)
    requires !w.Get(w.turn).skipNext && w.gun.Remaining() > 0 && w.turn == Player
    ensures var r := TurnStep(w, c, t);
      r.Ok? ==>
        && Settled(r.world)
        && r.world.gun.index > w.gun.index && r.world.roundNo == w.roundNo
        && (r.world.player.hp >= w.player.hp || r.world.dealer.hp >= w.dealer.hp)
        && (r.world.turn == w.turn ==>
              r.world.player.hp >= w.player.hp && r.world.dealer.hp >= w.dealer.hp)
  {
    var phase := HumanItemPhase(w, t.uses);
    if phase.Ok? && !phase.world.gun.Empty() {
      ShotSettles(phase.world, Player, if t.shootSelf then Player else Dealer);
    }
  }

  /**
   * A turn that reaches the shot fires at least one shell and stays in the
   * round; a shooter who keeps the turn has cost nobody any HP.
   */
  lemma TurnShoots(w: World, c: Config, t: TurnInput)
    requires Settled(w) && ValidReload(c, t.reload)
    requires !w.Get(w.turn).skipNext && w.gun.Remaining() > 0
    ensures var r := TurnStep(w, c, t);
      r.Ok? ==>
        && r.world.gun.index > w.gun.index && r.world.roundNo == w.roundNo
        && (r.world.turn == w.turn ==>
              r.world.player.hp >= w.player.hp && r.world.dealer.hp >= w.dealer.hp)
  {
    if w.turn == Dealer {
      AiTurnSettles(w, c, t);
    } else {
      HumanTurnSettles(w, c, t);
    }
  }

  /**
   * Every turn leaves the table settled, the invariant of the whole game,
   * and costs HP to one side at most.
   */
  lemma TurnKeepsSettled(w: World, c: Config, t: TurnInput)
    requires Settled(w) && ValidReload(c, t.reload)
    ensures var r := TurnStep(w, c, t);
      r.Ok? ==> Settled(r.world) && (r.world.player.hp >= w.player.hp || r.world.dealer.hp >= w.dealer.hp)
  {
    if w.Get(w.turn).skipNext {
    } else if w.gun.Remaining() == 0 {
      TurnReloads(w, c, t);
    } else if w.turn == Dealer {
      AiTurnSettles(w, c, t);
    } else {
      HumanTurnSettles(w, c, t);
    }
  }

  /** Every draw a sequence of turns consumes is a valid reload. */
  predicate ValidInputs(c: Config, ts: seq<TurnInput>) {
    forall k :: 0 <= k < |ts| ==> ValidReload(c, ts[k].reload)
  }

  /**
   * `play`: turns are taken while both actors are alive; here also while
   * inputs remain, and an exception ends the run.
   */
  function Played(w: World, c: Config, ts: seq<TurnInput>): (r: Outcome)
    requires w.gun.Valid() && ValidInputs(c, ts)
    ensures r.Ok? ==> r.world.gun.Valid()
    decreases |ts|
  {
    if ts == [] || !w.player.IsAlive() || !w.dealer.IsAlive() then Ok(w)
    else
      match TurnStep(w, c, ts[0])
      case Crash(f) => Crash(f)
      case Ok(w1) => Played(w1, c, ts[1..])
  }

  /** The message `play` prints once the loop ends: the player wins exactly when still alive. */
  function Winner(w: World): (r: Option<Side>)
    ensures r == None <==> w.player.IsAlive() && w.dealer.IsAlive()
    ensures r == Some(Player) <==> w.player.IsAlive() && !w.dealer.IsAlive()
    ensures r == Some(Dealer) <==> !w.player.IsAlive()
  {
    if w.player.IsAlive() && w.dealer.IsAlive() then None
    else if w.player.IsAlive() then Some(Player)
    else Some(Dealer)
  }

  /**
   * From a settled table with both actors alive, any run of turns stays
   * settled and never leaves both actors dead: the one declared the winner
   * is alive.
   */
  lemma {:induction false} PlayedKeepsSettled(w: World, c: Config, ts: seq<TurnInput>)
    requires Settled(w) && ValidInputs(c, ts)
    requires w.player.IsAlive() || w.dealer.IsAlive()
    ensures var r := Played(w, c, ts);
      r.Ok? ==>
        && Settled(r.world)
        && (r.world.player.IsAlive() || r.world.dealer.IsAlive())
        && (Winner(r.world) == Some(Player) ==> r.world.player.IsAlive() && !r.world.dealer.IsAlive())
        && (Winner(r.world) == Some(Dealer) ==> r.world.dealer.IsAlive() && !r.world.player.IsAlive())
    decreases |ts|
  {
    if ts == [] || !w.player.IsAlive() || !w.dealer.IsAlive() {
    } else {
      TurnKeepsSettled(w, c, ts[0]);
      var step := TurnStep(w, c, ts[0]);
      if step.Ok? {
        PlayedKeepsSettled(step.world, c, ts[1..]);
      }
    }
  }
}
