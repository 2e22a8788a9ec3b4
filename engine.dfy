/**
 * The `Game` object of buckshot_roulette_cli.py: two actors, a shotgun that
 * is replaced at every new round, whose turn it is and the round number.
 * Each method changes these objects in place and is proved to make the
 * transition the rules in Effects, Policy and Rounds describe on values.
 * Every random draw and every answer typed at the console is a parameter.
 */
module Engine {
  import opened Wrappers
  import opened Shells
  import opened Catalog
  import opened Actors
  import opened Effects
  import opened Policy
  import opened Rounds

  class Game {
    const cfg: Config
    const player: Actor
    const dealer: Actor
    var shotgun: Shotgun
    var turn: Actor
    var roundNo: int

    /** Two distinct actors, only the dealer driven by the AI, the turn held by one of them. */
    ghost predicate Valid()
      reads this, player, dealer, shotgun
    {
      && player != dealer && !player.ai && dealer.ai
      && (turn == player || turn == dealer)
      && shotgun.Valid()
    }

    function SideOf(a: Actor): (s: Side) {
      if a == player then Player else Dealer
    }

    /** The table as a value. */
    function State(): (w: World)
      reads this, player, dealer, shotgun
    {
      World(player.State(), dealer.State(), shotgun.State(), SideOf(turn), roundNo)
    }

    /** `Game.__init__`, given the draws of the first `Shotgun.load` and `deal_items`. */
    constructor (cfg: Config, d: Reload)
      requires ValidReload(cfg, d)
      ensures Valid() && State() == Opening(cfg, d)
      ensures fresh(player) && fresh(dealer) && fresh(shotgun)
    {
      this.cfg := cfg;
      var you := new Actor(cfg.playerMaxHp, false);
      player := you;
      dealer := new Actor(cfg.dealerMaxHp, true);
      turn := you;
      shotgun := new Shotgun.Load(cfg.minShells, cfg.maxShells, d.n, d.liveCount, d.draws);
      roundNo := 1;
      new;
      DealItems(d.playerHand, d.dealerHand);
    }

    /** `other`: the opponent of either actor. */
    function Other(a: Actor): (b: Actor)
      requires player != dealer && (a == player || a == dealer)
      ensures b != a && (b == player || b == dealer)
      ensures SideOf(b) == Effects.Other(SideOf(a))
    {
      if a == player then dealer else player
    }

    /** `deal_items`, given each actor's `random.sample` of the catalogue. */
    method DealItems(playerHand: seq<ItemId>, dealerHand: seq<ItemId>)
      requires player != dealer
      modifies player, dealer
      ensures State() == Rounds.DealItems(old(State()), playerHand, dealerHand)
    {
      player.inventory := playerHand;
      player.knowledge := Unknown;
      dealer.inventory := dealerHand;
      dealer.knowledge := Unknown;
    }

    /**
     * `prompt_choose_item`: `answer` is the number typed (`None` for ENTER),
     * taken as an inventory position modulo its size.  The AI and an actor
     * with nothing in hand are never asked.
     */
    method PromptChooseItem(actor: Actor, answer: Option<nat>) returns (r: Option<ItemId>)
      modifies actor
      ensures actor.ai || old(actor.inventory) == [] || answer == None ==>
        r == None && actor.State() == old(actor.State())
      ensures !actor.ai && old(actor.inventory) != [] && answer.Some? ==>
        && r == Some(old(actor.inventory)[answer.value % |old(actor.inventory)|])
        && actor.State() == old(actor.State()).WithoutItem(r.value)
    {
      if actor.ai || actor.inventory == [] || answer == None {
        return None;
      }
      var id := actor.inventory[answer.value % |actor.inventory|];
      r := actor.PopItem(id);
    }

    method UseMagnifyingGlass(user: Actor)
      requires Valid() && (user == player || user == dealer) && !shotgun.State().Empty()
      modifies user
      ensures Valid() && State() == Effects.UseMagnifyingGlass(old(State()), SideOf(user))
    {
      var shell := shotgun.PeekCurrent();
      user.knowledge := user.knowledge.(currentKnown := Some(shell));
    }

    method UseBeer(user: Actor)
      requires Valid() && (user == player || user == dealer)
      modifies shotgun, player, dealer
      ensures Valid() && State() == Effects.UseBeer(old(State()), SideOf(user))
    {
      if shotgun.Remaining() == 0 {
        return;
      }
      var ejected := shotgun.EjectCurrent();
      user.knowledge := user.knowledge.(currentKnown := None);
      var opp := Other(user);
      opp.knowledge := opp.knowledge.(currentKnown := None);
    }

    method UseHandcuffs(user: Actor)
      requires Valid() && (user == player || user == dealer)
      modifies player, dealer
      ensures Valid() && State() == Effects.UseHandcuffs(old(State()), SideOf(user))
    {
      var target := Other(user);
      target.skipNext := true;
    }

    method UseHandSaw(user: Actor)
      requires Valid() && (user == player || user == dealer)
      modifies user
      ensures Valid() && State() == Effects.UseHandSaw(old(State()), SideOf(user))
    {
      user.dmgMult := 2;
    }

    method UseInverter(user: Actor)
      requires Valid() && (user == player || user == dealer)
      modifies shotgun, user
      ensures Valid() && State() == Effects.UseInverter(old(State()), SideOf(user))
    {
      shotgun.InvertCurrent();
      if user.knowledge.currentKnown.Some? {
        user.knowledge := user.knowledge.(currentKnown := Some(Flip(user.knowledge.currentKnown.value)));
      }
    }

    /** `draw` stands for `random.randint(1, rem - 1)`, reduced into that range. */
    method UseBurnerPhone(user: Actor, draw: nat)
      requires Valid() && (user == player || user == dealer)
      modifies user
      ensures Valid() && State() == Effects.UseBurnerPhone(old(State()), SideOf(user), draw)
    {
      var rem := shotgun.Remaining();
      if rem <= 1 {
        return;
      }
      var relIdx := 1 + draw % (rem - 1);
      var absIdx := shotgun.index + relIdx;
      var shell := shotgun.shells[absIdx];
      ghost var a := user.State();
      user.knowledge := user.knowledge.(knownPositions := user.knowledge.knownPositions[absIdx := shell]);
      assert user.State() == a.(knowledge := a.knowledge.(knownPositions := a.knowledge.knownPositions[absIdx := shell]));
    }

    method UseCigarette(user: Actor)
      requires Valid() && (user == player || user == dealer)
      modifies user
      ensures Valid() && State() == Effects.UseCigarette(old(State()), SideOf(user))
    {
      user.Heal(1);
    }

    /**
     * `ITEM_REGISTRY[id].use(self, user, self.other(user))`.  Returns false
     * where the source raises (a Magnifying Glass on an empty gun).
     * `steals` feeds the AI's `random.choice` of an Adrenaline.
     */
    method UseItem(id: ItemId, user: Actor, phone: nat, steals: seq<nat>) returns (ok: bool)
      requires Valid() && (user == player || user == dealer)
      requires user.ai ==> |steals| >= |Other(user).inventory|
      modifies shotgun, player, dealer
      ensures Valid()
      ensures var r := Effects.UseItem(old(State()), id, SideOf(user), phone, steals);
        ok == r.Ok? && (ok ==> State() == r.world)
      decreases |Other(user).inventory|, 1
    {
      ok := true;
      match id
      case MagnifyingGlass =>
        if shotgun.Remaining() == 0 {
          return false;
        }
        UseMagnifyingGlass(user);
      case Beer => UseBeer(user);
      case Handcuffs => UseHandcuffs(user);
      case HandSaw => UseHandSaw(user);
      case Inverter => UseInverter(user);
      case BurnerPhone => UseBurnerPhone(user, phone);
      case Cigarette => UseCigarette(user);
      case Adrenaline => ok := UseAdrenaline(user, phone, steals);
    }

    /**
     * Adrenaline: take one item from the opponent and use it at once.  The
     * AI's pick is `steals[0]` taken modulo the opponent's inventory size.  A
     * human's pick comes from `prompt_choose_item` on the opponent, with
     * `steals[0]` (if any) as the number typed; the opponent is the AI, so
     * the prompt returns `None` whatever is typed and the steal is cancelled.
     */
    method UseAdrenaline(user: Actor, phone: nat, steals: seq<nat>) returns (ok: bool)
      requires Valid() && (user == player || user == dealer)
      requires user.ai ==> |steals| >= |Other(user).inventory|
      modifies shotgun, player, dealer
      ensures Valid()
      ensures var r := Effects.UseItem(old(State()), Adrenaline, SideOf(user), phone, steals);
        ok == r.Ok? && (ok ==> State() == r.world)
      decreases |Other(user).inventory|, 0
    {
      ghost var w := State();
      ghost var t := Effects.Other(SideOf(user));
      var target := Other(user);
      if target.inventory == [] {
        return true;
      }
      assert target.State() == w.Get(t);
      var steal: Option<ItemId>;
      if user.ai {
        steal := Some(target.inventory[steals[0] % |target.inventory|]);
      } else {
        steal := PromptChooseItem(target, if steals == [] then None else Some(steals[0]));
      }
      if steal == None {
        return true;
      }
      var taken := target.PopItem(steal.value);
      assert State() == w.Put(t, w.Get(t).WithoutItem(steal.value));
      ok := UseItem(steal.value, user, phone, steals[1..]);
    }

    /** `resolve_shot`: fire, forget the chambered shell, apply damage, reset the Hand Saw. */
    method ResolveShot(shooter: Actor, target: Actor) returns (keepTurn: bool)
      requires Valid() && (shooter == player || shooter == dealer) && (target == player || target == dealer)
      requires shotgun.Remaining() > 0
      modifies shotgun, player, dealer
      ensures Valid()
      ensures var r := Rounds.ResolveShot(old(State()), SideOf(shooter), SideOf(target));
        State() == r.world && keepTurn == r.keepTurn
    {
      var shell := shotgun.Fire();
      shooter.knowledge := shooter.knowledge.(currentKnown := None);
      var opp := Other(shooter);
      opp.knowledge := opp.knowledge.(currentKnown := None);
      if shell == Live {
        var dmg := shooter.dmgMult;
        target.Hurt(dmg);
        shooter.dmgMult := 1;
        return false;
      }
      shooter.dmgMult := 1;
      return shooter == target;
    }

    /**
     * One item of `ai_maybe_use_item`: when `go`, `ai.pop_item(id)` then
     * `ITEM_REGISTRY[id].use(self, ai, self.player)`.
     */
    method AiUse(id: ItemId, go: bool)
      requires Valid() && !shotgun.State().Empty() && AiItem(id)
      requires go && id == Beer ==> shotgun.Remaining() > 2
      modifies shotgun, player, dealer
      ensures Valid() && State() == Policy.AiStep(old(State()), id, go)
    {
      if !go {
        return;
      }
      var popped := dealer.PopItem(id);
      if id == Cigarette {
        UseCigarette(dealer);
      } else if id == MagnifyingGlass {
        UseMagnifyingGlass(dealer);
      } else if id == HandSaw {
        UseHandSaw(dealer);
      } else if id == Beer {
        UseBeer(dealer);
      } else {
        UseHandcuffs(dealer);
      }
    }

    /**
     * `ai_maybe_use_item`: the five checks in order, each gated by its coin
     * flip in `f`; the estimate is `p_live` from before any item, or
     * certainty once the Magnifying Glass has shown the chambered shell.
     */
    method AiMaybeUseItem(ai: Actor, f: Flips)
      requires Valid() && ai == dealer && !shotgun.State().Empty()
      modifies shotgun, player, dealer
      ensures Valid() && State() == Policy.AiMaybeUseItem(old(State()), f)
    {
      var pLive := AiInspect(ai, f);
      AiSawCheck(ai, pLive, f);
      AiBeerCheck(ai, f);
      AiCuffsCheck(ai, pLive, f);
    }

    /** The Hand Saw check: certain enough of a live shell, holds one, and the coin (`< 0.5`) says yes. */
    method AiSawCheck(ai: Actor, pLive: Chance, f: Flips)
      requires Valid() && ai == dealer && !shotgun.State().Empty()
      modifies shotgun, player, dealer
      ensures Valid() && State() == AiStep(old(State()), HandSaw, Saws(old(State()), pLive, f))
    {
      var saw := AtLeast(pLive, 6, 10) && HandSaw in ai.inventory && f.saw;
      AiUse(HandSaw, saw);
    }

    /** The Beer check: more than two shells left, holds one, and the coin (`< 0.15`) says yes. */
    method AiBeerCheck(ai: Actor, f: Flips)
      requires Valid() && ai == dealer && !shotgun.State().Empty()
      modifies shotgun, player, dealer
      ensures Valid() && State() == AiStep(old(State()), Beer, Drinks(old(State()), f))
    {
      var beer := shotgun.Remaining() > 2 && Beer in ai.inventory && f.beer;
      AiUse(Beer, beer);
    }

    /** The Handcuffs check: certain enough of a live shell, holds one, and the coin (`< 0.25`) says yes. */
    method AiCuffsCheck(ai: Actor, pLive: Chance, f: Flips)
      requires Valid() && ai == dealer && !shotgun.State().Empty()
      modifies shotgun, player, dealer
      ensures Valid() && State() == AiStep(old(State()), Handcuffs, Cuffs(old(State()), pLive, f))
    {
      var cuffs := AtLeast(pLive, 6, 10) && Handcuffs in ai.inventory && f.cuffs;
      AiUse(Handcuffs, cuffs);
    }

    /** The Cigarette and Magnifying Glass checks; returns the estimate the later checks use. */
    method AiInspect(ai: Actor, f: Flips) returns (pLive: Chance)
      requires Valid() && ai == dealer && !shotgun.State().Empty()
      modifies shotgun, player, dealer
      ensures Valid() && (State(), pLive) == Policy.AiInspect(old(State()), f)
    {
      ghost var w := State();
      pLive := PLive(shotgun.State());
      var smoke := ai.hp < ai.maxHp && Cigarette in ai.inventory && f.cigarette;
      assert smoke == Smokes(w, f);
      AiUse(Cigarette, smoke);
      ghost var w1 := State();
      var looked := ai.knowledge.currentKnown == None && MagnifyingGlass in ai.inventory && f.glass;
      assert looked == Looks(w1, f);
      AiUse(MagnifyingGlass, looked);
      if looked && ai.knowledge.currentKnown.Some? {
        pLive := if ai.knowledge.currentKnown == Some(Live) then Chance(1, 1) else Chance(0, 1);
      }
      assert pLive == Estimate(w.gun, looked, State().dealer.knowledge);
    }

    /** `ai_choose_target`: the player when the chambered shell is known or likely live, else itself. */
    function AiChooseTarget(ai: Actor): (target: Actor)
      reads this, player, dealer, shotgun
      requires Valid() && ai == dealer
      ensures target == player || target == dealer
      ensures SideOf(target) == Policy.AiChooseTarget(State())
    {
      if ai.knowledge.currentKnown == Some(Live) then player
      else if ai.knowledge.currentKnown == Some(Blank) then ai
      else if AtLeast(PLive(shotgun.State()), 1, 2) then player
      else ai
    }

    /**
     * `use_item_flow`: the AI makes its one pass; the human is prompted
     * until the answer is ENTER or nothing is left in hand.  Returns false
     * where an item raises.
     */
    method UseItemFlow(actor: Actor, uses: seq<HumanUse>, f: Flips) returns (ok: bool)
      requires Valid() && (actor == player || actor == dealer)
      requires actor.ai ==> !shotgun.State().Empty()
      modifies shotgun, player, dealer
      ensures Valid()
      ensures actor.ai ==> ok && State() == Policy.AiMaybeUseItem(old(State()), f)
      ensures !actor.ai ==>
        var r := HumanItemPhase(old(State()), uses);
        ok == r.Ok? && (ok ==> State() == r.world)
    {
      if actor.ai {
        AiMaybeUseItem(actor, f);
        return true;
      }
      ok := HumanUseItems(uses);
    }

    /** The human's prompts: `uses` holds the answers, and ENTER once they run out. */
    method HumanUseItems(uses: seq<HumanUse>) returns (ok: bool)
      requires Valid()
      modifies shotgun, player, dealer
      ensures Valid()
      ensures var r := HumanItemPhase(old(State()), uses);
        ok == r.Ok? && (ok ==> State() == r.world)
    {
      ghost var goal := HumanItemPhase(State(), uses);
      var i := 0;
      while true
        invariant 0 <= i <= |uses|
        invariant Valid()
        invariant goal == HumanItemPhase(State(), uses[i..])
        decreases |uses| - i
      {
        if i == |uses| || player.inventory == [] {
          // ENTER, or nothing left to offer: `prompt_choose_item` returns None.
          return true;
        }
        ok := HumanUseOne(uses[i..]);
        if !ok {
          return false;
        }
        assert uses[i..][1..] == uses[i + 1..];
        i := i + 1;
      }
    }

    /**
     * One answered prompt, `uses[0]`: the chosen item is popped and used
     * against the dealer; the phase goes on from there.
     */
    method HumanUseOne(uses: seq<HumanUse>) returns (ok: bool)
      requires Valid() && uses != [] && player.inventory != []
      modifies shotgun, player, dealer
      ensures Valid()
      ensures var id := old(player.inventory)[uses[0].pick % |old(player.inventory)|];
        var r := Effects.UseItem(old(State()).Put(Player, old(State()).player.WithoutItem(id)),
                                 id, Player, uses[0].phone, []);
        ok == r.Ok? && (ok ==> State() == r.world)
      ensures !ok ==> HumanItemPhase(old(State()), uses).Crash?
      ensures ok ==> HumanItemPhase(old(State()), uses) == HumanItemPhase(State(), uses[1..])
    {
      HumanItemPhaseUnfolds(State(), uses);
      var iid := PromptChooseItem(player, Some(uses[0].pick));
      ok := UseItem(iid.value, player, uses[0].phone, []);
    }

    /**
     * `turn_loop`: the skip, the new round, or items, aim and one shot.
     * `t` carries the draws and answers this call consumes.  Returns false
     * where the source raises.
     */
    method TurnLoop(t: TurnInput) returns (ok: bool)
      requires Valid() && ValidReload(cfg, t.reload)
      modifies this, shotgun, player, dealer
      ensures Valid() && (shotgun == old(shotgun) || fresh(shotgun))
      ensures var r := TurnStep(old(State()), cfg, t);
        ok == r.Ok? && (ok ==> State() == r.world)
    {
      var actor := turn;
      var opp := Other(actor);
      if actor.skipNext {
        actor.skipNext := false;
        turn := opp;
        return true;
      }
      if shotgun.Remaining() == 0 {
        NewRound(t.reload);
        return true;
      }
      ok := ShotTurn(t);
    }

    /** The new-round branch of `turn_loop`: reload, deal, and give the player the move. */
    method NewRound(d: Reload)
      requires Valid() && 1 <= d.liveCount <= d.n - 1 && ShuffleDraws(d.draws, d.n)
      requires cfg.minShells <= d.n <= cfg.maxShells
      modifies this, player, dealer
      ensures Valid() && fresh(shotgun)
      ensures State() == Rounds.NewRound(old(State()), d)
    {
      roundNo := roundNo + 1;
      shotgun := new Shotgun.Load(cfg.minShells, cfg.maxShells, d.n, d.liveCount, d.draws);
      DealItems(d.playerHand, d.dealerHand);
      turn := player;
    }

    /** Items, aim and the shot for the actor to move; returns false where the source raises. */
    method ShotTurn(t: TurnInput) returns (ok: bool)
      requires Valid() && !shotgun.State().Empty()
      modifies this, shotgun, player, dealer
      ensures Valid() && shotgun == old(shotgun)
      ensures var r := Rounds.ShotTurn(old(State()), t);
        ok == r.Ok? && (ok ==> State() == r.world)
    {
      ghost var w := State();
      var actor := turn;
      var opp := Other(actor);
      ok := UseItemFlow(actor, t.uses, t.flips);
      if !ok {
        return false;
      }
      ghost var armed := State();
      var target: Actor;
      if actor.ai {
        target := AiChooseTarget(actor);
      } else {
        target := if t.shootSelf then actor else opp;
      }
      if shotgun.Remaining() == 0 {
        // `Shotgun.fire` raises on an empty gun.
        return false;
      }
      ghost var shot := Rounds.ResolveShot(armed, w.turn, SideOf(target));
      var keepTurn := ResolveShot(actor, target);
      if !keepTurn {
        turn := opp;
      }
      assert State() == HandOff(shot, Effects.Other(w.turn));
    }

    /**
     * `play`: turns while both actors are alive (here also while inputs
     * remain), then the winner: the player exactly when still alive.
     */
    method Play(ts: seq<TurnInput>) returns (ok: bool, winner: Option<Side>)
      requires Valid() && ValidInputs(cfg, ts)
      modifies this, shotgun, player, dealer
      ensures Valid()
      ensures var r := Played(old(State()), cfg, ts);
        ok == r.Ok? && (ok ==> State() == r.world && winner == Winner(r.world))
    {
      var i := 0;
      while i < |ts| && player.IsAlive() && dealer.IsAlive()
        invariant 0 <= i <= |ts|
        invariant Valid() && (shotgun == old(shotgun) || fresh(shotgun))
        invariant Played(old(State()), cfg, ts) == Played(State(), cfg, ts[i..])
        decreases |ts| - i
      {
        ok := TurnLoop(ts[i]);
        if !ok {
          return false, None;
        }
        i := i + 1;
      }
      ok := true;
      if player.IsAlive() && dealer.IsAlive() {
        winner := None;
      } else if player.IsAlive() {
        winner := Some(Player);
      } else {
        winner := Some(Dealer);
      }
    }
  }
}
