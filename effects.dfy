/**
 * The table (both actors and the shotgun) as a value, and the eight item
 * effects (`Item.use` in buckshot_roulette_cli.py) as transitions of it.
 * Every `use` is called with `target == game.other(user)`, so an effect is
 * determined by the item and the user's side.
 */
module Effects {
  import opened Wrappers
  import opened Shells
  import opened Catalog
  import opened Actors

  datatype Side = Player | Dealer

  /** `Game.other`: the opponent. */
  function Other(s: Side): (r: Side)
    ensures r != s
  {
    if s == Player then Dealer else Player
  }

  /** The dealer is created with `ai=True`, the player with `ai=False`. */
  predicate IsAi(s: Side) {
    s == Dealer
  }

  datatype World = World(
    player: ActorState,
    dealer: ActorState,
    gun: Magazine,
    turn: Side,
    roundNo: int)
  {
    function Get(s: Side): (a: ActorState) {
      if s == Player then player else dealer
    }

    function Put(s: Side, a: ActorState): (r: World) {
      if s == Player then this.(player := a) else this.(dealer := a)
    }
  }

  /** The exceptions the source can raise: `IndexError` from `peek_current`, `RuntimeError` from `fire`. */
  datatype Fault = PeekEmpty | FireEmpty

  /** The table after a step, or the exception that ends the program. */
  datatype Outcome = Ok(world: World) | Crash(fault: Fault)

  /**
   * An actor's knowledge is never wrong: a known chambered shell is the
   * chambered shell, and every known position still ahead of the cursor
   * holds the shell recorded for it.
   */
  predicate Accurate(k: Knowledge, g: Magazine) {
    && (k.currentKnown.Some? ==> !g.Empty() && k.currentKnown.value == g.PeekCurrent())
    && (forall p :: p in k.knownPositions && p > g.index ==>
          p < |g.shells| && k.knownPositions[p] == g.shells[p])
  }

  predicate KnowledgeSound(w: World) {
    Accurate(w.player.knowledge, w.gun) && Accurate(w.dealer.knowledge, w.gun)
  }

  /**
   * Knowledge is sound and the target of `u`'s items does not know the
   * chambered shell: how the table stands while `u` plays its items.
   */
  predicate InformedFor(w: World, u: Side) {
    KnowledgeSound(w) && w.Get(Other(u)).knowledge.currentKnown == None
  }

  /**
   * What every item effect preserves: the tube's length and a cursor that
   * only moves forward, the turn and the round, both maxima, the user's own
   * inventory, the target's HP and damage multiplier; the user's multiplier is
   * kept or set to 2; no HP is lost and
   * none rises above its maximum.
   */
  predicate EffectFrame(w: World, r: World, u: Side) {
    var t := Other(u);
    && r.gun.Valid()
    && |r.gun.shells| == |w.gun.shells|
    && w.gun.index <= r.gun.index <= w.gun.index + 1
    && r.turn == w.turn && r.roundNo == w.roundNo
    && r.player.maxHp == w.player.maxHp && r.dealer.maxHp == w.dealer.maxHp
    && r.Get(u).inventory == w.Get(u).inventory
    && r.Get(t).hp == w.Get(t).hp
    && r.Get(t).dmgMult == w.Get(t).dmgMult
    && (r.Get(u).dmgMult == w.Get(u).dmgMult || r.Get(u).dmgMult == 2)
    && (HpCapped(w.Get(u)) ==> HpCapped(r.Get(u)) && w.Get(u).hp <= r.Get(u).hp)
  }

  function UseMagnifyingGlass(w: World, u: Side): (r: World)
    requires w.gun.Valid() && !w.gun.Empty()
    ensures EffectFrame(w, r, u) && r.Get(Other(u)).inventory == w.Get(Other(u)).inventory
    ensures InformedFor(w, u) ==> InformedFor(r, u)
  {
    var a := w.Get(u);
    w.Put(u, a.(knowledge := a.knowledge.(currentKnown := Some(w.gun.PeekCurrent()))))
  }

  function UseBeer(w: World, u: Side): (r: World)
    requires w.gun.Valid()
    ensures EffectFrame(w, r, u) && r.Get(Other(u)).inventory == w.Get(Other(u)).inventory
    ensures InformedFor(w, u) ==> InformedFor(r, u)
  {
    if w.gun.Remaining() == 0 then w
    else
      var racked := w.(gun := w.gun.Fired());
      var w1 := racked.Put(u, racked.Get(u).Forgetting());
      w1.Put(Other(u), w1.Get(Other(u)).Forgetting())
  }

  function UseHandcuffs(w: World, u: Side): (r: World)
    requires w.gun.Valid()
    ensures EffectFrame(w, r, u) && r.Get(Other(u)).inventory == w.Get(Other(u)).inventory
    ensures InformedFor(w, u) ==> InformedFor(r, u)
  {
    var t := Other(u);
    w.Put(t, w.Get(t).(skipNext := true))
  }

  function UseHandSaw(w: World, u: Side): (r: World)
    requires w.gun.Valid()
    ensures EffectFrame(w, r, u) && r.Get(Other(u)).inventory == w.Get(Other(u)).inventory
    ensures InformedFor(w, u) ==> InformedFor(r, u)
  {
    w.Put(u, w.Get(u).(dmgMult := 2))
  }

  function UseInverter(w: World, u: Side): (r: World)
    requires w.gun.Valid()
    ensures EffectFrame(w, r, u) && r.Get(Other(u)).inventory == w.Get(Other(u)).inventory
    ensures InformedFor(w, u) ==> InformedFor(r, u)
  {
    var a := w.Get(u);
    var known := match a.knowledge.currentKnown
      case None => None
      case Some(s) => Some(Flip(s));
    w.(gun := w.gun.Inverted()).Put(u, a.(knowledge := a.knowledge.(currentKnown := known)))
  }

  /**
   * Burner Phone: `draw` is the random offset's source, reduced into
   * `[1, remaining - 1]` as `random.randint(1, rem - 1)` would draw it.
   */
  function UseBurnerPhone(w: World, u: Side, draw: nat): (r: World)
    requires w.gun.Valid()
    ensures EffectFrame(w, r, u) && r.Get(Other(u)).inventory == w.Get(Other(u)).inventory
    ensures InformedFor(w, u) ==> InformedFor(r, u)
  {
    var rem := w.gun.Remaining();
    if rem <= 1 then w
    else
      var pos := w.gun.index + 1 + draw % (rem - 1);
      var a := w.Get(u);
      var known := a.knowledge.knownPositions[pos := w.gun.shells[pos]];
      w.Put(u, a.(knowledge := a.knowledge.(knownPositions := known)))
  }

  function UseCigarette(w: World, u: Side): (r: World)
    requires w.gun.Valid()
    ensures EffectFrame(w, r, u) && r.Get(Other(u)).inventory == w.Get(Other(u)).inventory
    ensures InformedFor(w, u) ==> InformedFor(r, u)
  {
    w.Put(u, w.Get(u).Healed(1))
  }

  /**
   * The dispatcher `ITEM_REGISTRY[id].use(game, user, other(user))`.
   * `phone` feeds a Burner Phone; `steals` feeds the AI's
   * `random.choice(target.inventory)`, one draw per Adrenaline.
   */
  function UseItem(w: World, id: ItemId, u: Side, phone: nat, steals: seq<nat>): (r: Outcome)
    requires w.gun.Valid()
    requires IsAi(u) ==> |steals| >= |w.Get(Other(u)).inventory|
    ensures r.Crash? ==> r.fault == PeekEmpty && w.gun.Empty()
    ensures id == MagnifyingGlass && w.gun.Empty() ==> r == Crash(PeekEmpty)
    ensures id != MagnifyingGlass && id != Adrenaline ==> r.Ok?
    ensures r.Ok? ==> EffectFrame(w, r.world, u)
    ensures r.Ok? ==> multiset(r.world.Get(Other(u)).inventory) <= multiset(w.Get(Other(u)).inventory)
    ensures r.Ok? && InformedFor(w, u) ==> InformedFor(r.world, u)
    ensures (id != Adrenaline || !IsAi(u)) && r.Ok? ==>
      r.world.Get(Other(u)).inventory == w.Get(Other(u)).inventory
    decreases |w.Get(Other(u)).inventory|
  {
    match id
    case MagnifyingGlass =>
      if w.gun.Empty() then Crash(PeekEmpty) else Ok(UseMagnifyingGlass(w, u))
    case Beer => Ok(UseBeer(w, u))
    case Handcuffs => Ok(UseHandcuffs(w, u))
    case HandSaw => Ok(UseHandSaw(w, u))
    case Inverter => Ok(UseInverter(w, u))
    case BurnerPhone => Ok(UseBurnerPhone(w, u, phone))
    case Cigarette => Ok(UseCigarette(w, u))
    case Adrenaline =>
      var t := Other(u);
      var inv := w.Get(t).inventory;
      if |inv| == 0 then Ok(w)
      // A human user's choice comes from `prompt_choose_item(target)`, which
      // returns None for the AI-controlled target: the steal is cancelled.
      else if !IsAi(u) then Ok(w)
      else
        var stolen := inv[steals[0] % |inv|];
        var robbed := w.Put(t, w.Get(t).WithoutItem(stolen));
        var r := UseItem(robbed, stolen, u, phone, steals[1..]);
        StolenUseFrames(w, u, stolen, r);
        r
  }

  /** What the stolen item's use keeps with respect to the robbed table, it keeps with respect to the table before the steal. */
  lemma StolenUseFrames(w: World, u: Side, stolen: ItemId, r: Outcome)
    requires w.gun.Valid()
    requires var robbed := w.Put(Other(u), w.Get(Other(u)).WithoutItem(stolen));
      && (r.Crash? ==> r.fault == PeekEmpty && robbed.gun.Empty())
      && (r.Ok? ==> EffectFrame(robbed, r.world, u))
      && (r.Ok? ==> multiset(r.world.Get(Other(u)).inventory) <= multiset(robbed.Get(Other(u)).inventory))
      && (r.Ok? && InformedFor(robbed, u) ==> InformedFor(r.world, u))
    ensures r.Crash? ==> r.fault == PeekEmpty && w.gun.Empty()
    ensures r.Ok? ==> EffectFrame(w, r.world, u)
    ensures r.Ok? ==> multiset(r.world.Get(Other(u)).inventory) <= multiset(w.Get(Other(u)).inventory)
    ensures r.Ok? && InformedFor(w, u) ==> InformedFor(r.world, u)
  {
  }

  /** The Magnifying Glass tells its user the truth about the chambered shell, and nothing else changes. */
  lemma MagnifyingGlassReveals(w: World, u: Side)
    requires w.gun.Valid() && !w.gun.Empty()
    ensures var r := UseMagnifyingGlass(w, u);
      && r.gun == w.gun
      && r.Get(Other(u)) == w.Get(Other(u))
      && r.Get(u).knowledge.currentKnown == Some(r.gun.PeekCurrent())
      && r.Get(u).knowledge.knownPositions == w.Get(u).knowledge.knownPositions
      && r.Get(u).(knowledge := w.Get(u).knowledge) == w.Get(u)
      && r.turn == w.turn && r.roundNo == w.roundNo
  {
  }

  /**
   * Beer does nothing to an empty gun; otherwise it ejects the chambered
   * shell without harm and leaves neither actor knowing the new one.
   * Nothing else changes: HP, restraints, multipliers, inventories and the
   * Burner Phone records are kept.
   */
  lemma BeerRacks(w: World, u: Side)
    requires w.gun.Valid()
    ensures var r := UseBeer(w, u);
      && (w.gun.Remaining() == 0 ==> r == w)
      && (w.gun.Remaining() > 0 ==>
            && r.gun == w.gun.Fired()
            && r.gun.Remaining() == w.gun.Remaining() - 1
            && r.player.knowledge.currentKnown == None
            && r.dealer.knowledge.currentKnown == None
            && r.player.hp == w.player.hp && r.dealer.hp == w.dealer.hp
            && r == w.(gun := w.gun.Fired(), player := w.player.Forgetting(), dealer := w.dealer.Forgetting()))
  {
  }

  /**
   * Handcuffs restrain the target for its next turn; the user, the gun, the
   * turn and the round are untouched.
   */
  lemma HandcuffsRestrain(w: World, u: Side)
    requires w.gun.Valid()
    ensures var r := UseHandcuffs(w, u);
      && r.Get(Other(u)).skipNext
      && r.Get(Other(u)) == w.Get(Other(u)).(skipNext := true)
      && r.Get(u) == w.Get(u)
      && r.gun == w.gun && r.turn == w.turn && r.roundNo == w.roundNo
  {
  }

  /** The Hand Saw arms the user's next shot for double damage, and changes nothing else. */
  lemma HandSawArms(w: World, u: Side)
    requires w.gun.Valid()
    ensures var r := UseHandSaw(w, u);
      && r.Get(u).dmgMult == 2
      && r.Get(u) == w.Get(u).(dmgMult := 2)
      && r.Get(Other(u)) == w.Get(Other(u))
      && r.gun == w.gun && r.turn == w.turn && r.roundNo == w.roundNo
  {
  }

  /**
   * A Cigarette gives its user one HP, unless already at the maximum (or
   * above it), where HP becomes the maximum; nothing else changes.
   */
  lemma CigaretteHeals(w: World, u: Side)
    requires w.gun.Valid()
    ensures var r := UseCigarette(w, u);
      && (w.Get(u).hp < w.Get(u).maxHp ==> r.Get(u).hp == w.Get(u).hp + 1)
      && (w.Get(u).hp >= w.Get(u).maxHp ==> r.Get(u).hp == w.Get(u).maxHp)
      && r.Get(u).(hp := w.Get(u).hp) == w.Get(u)
      && r.Get(Other(u)) == w.Get(Other(u))
      && r.gun == w.gun && r.turn == w.turn && r.roundNo == w.roundNo
  {
  }

  /**
   * The Inverter flips the chambered shell and its user's knowledge of it in
   * lockstep: knowledge that was right before is right afterwards.  The
   * user's records, everything else about the user and the target are kept.
   */
  lemma InverterLockstep(w: World, u: Side)
    requires w.gun.Valid()
    ensures var r := UseInverter(w, u);
      && r.gun == w.gun.Inverted()
      && r.Get(Other(u)) == w.Get(Other(u))
      && (w.Get(u).knowledge.currentKnown == None ==> r.Get(u) == w.Get(u))
      && (!w.gun.Empty() && w.Get(u).knowledge.currentKnown == Some(w.gun.PeekCurrent()) ==>
            r.Get(u).knowledge.currentKnown == Some(r.gun.PeekCurrent()))
      && (w.Get(u).knowledge.currentKnown.Some? ==>
            r.Get(u).knowledge.currentKnown == Some(Flip(w.Get(u).knowledge.currentKnown.value)))
      && r.Get(u) == w.Get(u).(knowledge := w.Get(u).knowledge.(currentKnown := r.Get(u).knowledge.currentKnown))
      && r.turn == w.turn && r.roundNo == w.roundNo
  {
    InvertedFlipsOnlyCurrent(w.gun);
  }

  /**
   * The Burner Phone is a no-op with at most one shell left; otherwise it
   * records the true shell of exactly one position strictly after the
   * chambered one, and changes nothing else.
   */
  lemma BurnerPhoneReveals(w: World, u: Side, draw: nat)
    requires w.gun.Valid()
    ensures var r := UseBurnerPhone(w, u, draw);
      && (w.gun.Remaining() <= 1 ==> r == w)
      && (w.gun.Remaining() > 1 ==>
            exists pos :: w.gun.index < pos < |w.gun.shells| &&
              var a := w.Get(u);
              r == w.Put(u, a.(knowledge := a.knowledge.(
                     knownPositions := a.knowledge.knownPositions[pos := w.gun.shells[pos]]))))
  {
    var rem := w.gun.Remaining();
    if rem > 1 {
      var pos := w.gun.index + 1 + draw % (rem - 1);
      var a := w.Get(u);
      assert w.gun.index < pos < |w.gun.shells|;
      assert UseBurnerPhone(w, u, draw) == w.Put(u, a.(knowledge := a.knowledge.(
        knownPositions := a.knowledge.knownPositions[pos := w.gun.shells[pos]])));
    }
  }

  /**
   * Adrenaline does nothing when the target holds nothing, and nothing for a
   * human user (the steal is always cancelled).  For the AI it removes one
   * occurrence of some item the target holds and applies that item's effect
   * with the same user; unless the stolen item is itself Adrenaline, the
   * target ends with exactly that one item fewer.
   */
  lemma AdrenalineSteals(w: World, u: Side, phone: nat, steals: seq<nat>)
    requires w.gun.Valid()
    requires IsAi(u) ==> |steals| >= |w.Get(Other(u)).inventory|
    ensures var inv := w.Get(Other(u)).inventory;
      && (inv == [] || !IsAi(u) ==> UseItem(w, Adrenaline, u, phone, steals) == Ok(w))
      && (inv != [] && IsAi(u) ==>
            exists i :: 0 <= i < |inv| &&
              var robbed := w.Put(Other(u), w.Get(Other(u)).WithoutItem(inv[i]));
              && |robbed.Get(Other(u)).inventory| == |inv| - 1
              && UseItem(w, Adrenaline, u, phone, steals) == UseItem(robbed, inv[i], u, phone, steals[1..])
              && (inv[i] != Adrenaline && UseItem(robbed, inv[i], u, phone, steals[1..]).Ok? ==>
                    multiset(UseItem(robbed, inv[i], u, phone, steals[1..]).world.Get(Other(u)).inventory)
                    == multiset(inv) - multiset{inv[i]}))
  {
    var inv := w.Get(Other(u)).inventory;
    if inv != [] && IsAi(u) {
      AdrenalineStealsAt(w, u, phone, steals);
    }
  }

  /** The steal of `AdrenalineSteals`, at the position the first draw picks. */
  lemma AdrenalineStealsAt(w: World, u: Side, phone: nat, steals: seq<nat>)
    requires w.gun.Valid() && IsAi(u)
    requires w.Get(Other(u)).inventory != [] && |steals| >= |w.Get(Other(u)).inventory|
    ensures var inv := w.Get(Other(u)).inventory;
      var i := steals[0] % |inv|;
      var robbed := w.Put(Other(u), w.Get(Other(u)).WithoutItem(inv[i]));
      && 0 <= i < |inv|
      && |robbed.Get(Other(u)).inventory| == |inv| - 1
      && UseItem(w, Adrenaline, u, phone, steals) == UseItem(robbed, inv[i], u, phone, steals[1..])
      && (inv[i] != Adrenaline && UseItem(robbed, inv[i], u, phone, steals[1..]).Ok? ==>
            multiset(UseItem(robbed, inv[i], u, phone, steals[1..]).world.Get(Other(u)).inventory)
            == multiset(inv) - multiset{inv[i]})
  {
    var inv := w.Get(Other(u)).inventory;
    var i := steals[0] % |inv|;
    var robbed := w.Put(Other(u), w.Get(Other(u)).WithoutItem(inv[i]));
    var r := UseItem(robbed, inv[i], u, phone, steals[1..]);
    assert |robbed.Get(Other(u)).inventory| == |inv| - 1 &&
      multiset(robbed.Get(Other(u)).inventory) == multiset(inv) - multiset{inv[i]} by {
      assert inv[i] in inv;
    }
    assert UseItem(w, Adrenaline, u, phone, steals) == r;
    assert inv[i] != Adrenaline && r.Ok? ==>
      r.world.Get(Other(u)).inventory == robbed.Get(Other(u)).inventory;
  }

  /**
   * A Burner Phone record can go stale: the phone records position 1, Beer
   * racks the gun onto position 1, and the Inverter then flips that shell
   * while only the chambered-shell knowledge is updated.  The record says
   * live, the shell is blank.  Knowledge of the chambered shell and of every
   * position strictly ahead stays accurate throughout.
   */
  lemma InverterCanLeaveStaleRecord()
    ensures var w := World(Fresh(4), Fresh(4), Magazine([Live, Live, Blank], 0), Player, 1);
      var r := UseInverter(UseBeer(UseBurnerPhone(w, Player, 0), Player), Player);
      && r.gun.index == 1
      && 1 in r.player.knowledge.knownPositions
      && r.player.knowledge.knownPositions[1] == Live
      && r.gun.shells[1] == Blank
      && KnowledgeSound(w) && KnowledgeSound(r)
  {
    var w := World(Fresh(4), Fresh(4), Magazine([Live, Live, Blank], 0), Player, 1);
    var w1 := UseBurnerPhone(w, Player, 0);
    assert w1.player.knowledge.knownPositions == map[1 := Live];
    var w2 := UseBeer(w1, Player);
    assert w2.gun == Magazine([Live, Live, Blank], 1);
    var r := UseInverter(w2, Player);
    assert r.gun.shells == [Live, Blank, Blank];
  }
}
