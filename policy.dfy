/**
 * The dealer's heuristic (`Game.ai_maybe_use_item` and
 * `Game.ai_choose_target`).  The coin flips `random.random() < q` arrive as
 * booleans, and the floating-point estimate `p_live` is a fraction compared
 * by cross-multiplication.
 */
module Policy {
  import opened Wrappers
  import opened Shells
  import opened Catalog
  import opened Actors
  import opened Effects

  /** A probability `num / den`. */
  datatype Chance = Chance(num: nat, den: nat)

  /** `p_live = live_left / max(1, live_left + blank_left)`. */
  function PLive(g: Magazine): (p: Chance)
    requires g.Valid()
    ensures 0 < p.den && p.num <= p.den
    ensures p.num == g.CountsRemaining().0
    ensures g.Remaining() > 0 ==> p.den == g.Remaining()
  {
    var (live, blank) := g.CountsRemaining();
    Chance(live, if live + blank < 1 then 1 else live + blank)
  }

  /** `p >= num / den`. */
  predicate AtLeast(p: Chance, num: nat, den: nat) {
    p.num * den >= num * p.den
  }

  /** Outcomes of the five `random.random() < q` draws, in the order they are made. */
  datatype Flips = Flips(cigarette: bool, glass: bool, saw: bool, beer: bool, cuffs: bool)

  /** `ai.pop_item(id)` for the dealer. */
  function DealerPops(w: World, id: ItemId): (r: World) {
    w.Put(Dealer, w.dealer.WithoutItem(id))
  }

  /**
   * What one use of an item by the dealer preserves: a chambered shell
   * still present, the tube's length, a cursor that only moves forward, the
   * turn and round, the player's HP, inventory and maximum, a dealer
   * inventory that only shrinks, a dealer multiplier kept or set to 2, and the dealer's HP neither lowered nor
   * pushed above its maximum.
   */
  predicate AiFrame(w: World, r: World) {
    && r.gun.Valid() && !r.gun.Empty()
    && |r.gun.shells| == |w.gun.shells| && w.gun.index <= r.gun.index
    && r.turn == w.turn && r.roundNo == w.roundNo
    && r.player.inventory == w.player.inventory && r.player.hp == w.player.hp
    && r.player.dmgMult == w.player.dmgMult
    && r.player.maxHp == w.player.maxHp && r.dealer.maxHp == w.dealer.maxHp
    && multiset(r.dealer.inventory) <= multiset(w.dealer.inventory)
    && (r.dealer.dmgMult == w.dealer.dmgMult || r.dealer.dmgMult == 2)
    && (HpCapped(w.dealer) ==> HpCapped(r.dealer) && w.dealer.hp <= r.dealer.hp)
  }

  lemma AiFrameTransitive(a: World, b: World, c: World)
    requires AiFrame(a, b) && AiFrame(b, c)
    ensures AiFrame(a, c)
  {
  }

  /** The five items the heuristic considers. */
  predicate AiItem(id: ItemId) {
    id == Cigarette || id == MagnifyingGlass || id == HandSaw || id == Beer || id == Handcuffs
  }

  /**
   * When `go` holds, `ai.pop_item(id)` followed by
   * `ITEM_REGISTRY[id].use(self, ai, self.player)`.  Beer is only used with
   * more than two shells left, so the gun is never emptied.
   */
  function AiStep(w: World, id: ItemId, go: bool): (r: World)
    requires w.gun.Valid() && !w.gun.Empty() && AiItem(id)
    requires go && id == Beer ==> w.gun.Remaining() > 2
    ensures AiFrame(w, r)
    ensures !go ==> r == w
    ensures go ==> multiset(r.dealer.inventory) == multiset(w.dealer.inventory) - multiset{id}
    ensures InformedFor(w, Dealer) ==> InformedFor(r, Dealer)
  {
    if !go then w
    else
      var popped := DealerPops(w, id);
      if id == Cigarette then UseCigarette(popped, Dealer)
      else if id == MagnifyingGlass then UseMagnifyingGlass(popped, Dealer)
      else if id == HandSaw then UseHandSaw(popped, Dealer)
      else if id == Beer then UseBeer(popped, Dealer)
      else UseHandcuffs(popped, Dealer)
  }

  /** Cigarette: the dealer is hurt, holds one, and the coin (`< 0.5`) says yes. */
  predicate Smokes(w: World, f: Flips) {
    w.dealer.hp < w.dealer.maxHp && Cigarette in w.dealer.inventory && f.cigarette
  }

  /** Magnifying Glass: the chambered shell is unknown, the dealer holds one, and the coin (`< 0.35`) says yes. */
  predicate Looks(w: World, f: Flips) {
    w.dealer.knowledge.currentKnown == None && MagnifyingGlass in w.dealer.inventory && f.glass
  }

  /**
   * The estimate after the glass: certainty when the glass was used and
   * showed the shell, else `p_live` from before any item.
   */
  function Estimate(before: Magazine, looked: bool, k: Knowledge): (p: Chance)
    requires before.Valid()
    ensures 0 < p.den && p.num <= p.den
    ensures looked && k.currentKnown.Some? ==> (AtLeast(p, 1, 1) <==> k.currentKnown == Some(Live))
    ensures looked && k.currentKnown.Some? ==> (AtLeast(p, 1, 1) || p.num == 0)
    ensures !(looked && k.currentKnown.Some?) ==> p == PLive(before)
  {
    if looked && k.currentKnown.Some?
    then (if k.currentKnown == Some(Live) then Chance(1, 1) else Chance(0, 1))
    else PLive(before)
  }

  /** Hand Saw: `p >= 0.6`, the dealer holds one, and the coin (`< 0.5`) says yes. */
  predicate Saws(w: World, p: Chance, f: Flips) {
    AtLeast(p, 6, 10) && HandSaw in w.dealer.inventory && f.saw
  }

  /** Beer: more than two shells left, the dealer holds one, and the coin (`< 0.15`) says yes. */
  predicate Drinks(w: World, f: Flips) {
    w.gun.Remaining() > 2 && Beer in w.dealer.inventory && f.beer
  }

  /** Handcuffs: `p >= 0.6`, the dealer holds a pair, and the coin (`< 0.25`) says yes. */
  predicate Cuffs(w: World, p: Chance, f: Flips) {
    AtLeast(p, 6, 10) && Handcuffs in w.dealer.inventory && f.cuffs
  }

  /**
   * The first two checks: a Cigarette when hurt, then a Magnifying Glass
   * when the chambered shell is unknown.  Returns the table and the
   * estimate the later checks use.
   */
  function AiInspect(w: World, f: Flips): (r: (World, Chance))
    requires w.gun.Valid() && !w.gun.Empty()
    ensures AiFrame(w, r.0) && r.0.gun == w.gun
    ensures InformedFor(w, Dealer) ==> InformedFor(r.0, Dealer)
    ensures Looks(w, f) ==> r.0.dealer.knowledge.currentKnown == Some(w.gun.PeekCurrent())
    ensures r.1 == Estimate(w.gun, Looks(w, f), r.0.dealer.knowledge)
  {
    var w1 := AiStep(w, Cigarette, Smokes(w, f));
    var looked := Looks(w1, f);
    var w2 := AiStep(w1, MagnifyingGlass, looked);
    AiFrameTransitive(w, w1, w2);
    assert looked == Looks(w, f) by {
      AiStepApplies(w, Cigarette, Smokes(w, f));
      AiStepKeepsOthers(w, Cigarette, Smokes(w, f), MagnifyingGlass);
    }
    assert w2.gun == w.gun && (looked ==> w2.dealer.knowledge.currentKnown == Some(w.gun.PeekCurrent())) by {
      AiStepApplies(w, Cigarette, Smokes(w, f));
      AiStepApplies(w1, MagnifyingGlass, looked);
    }
    (w2, Estimate(w.gun, looked, w2.dealer.knowledge))
  }

  /**
   * One pass of the dealer's item heuristic: Cigarette, Magnifying Glass,
   * Hand Saw, Beer and Handcuffs, each considered once in that order.  The
   * pass never empties the gun, so the dealer's shot cannot fail, and it
   * keeps knowledge sound.
   */
  function AiMaybeUseItem(w: World, f: Flips): (r: World)
    requires w.gun.Valid() && !w.gun.Empty()
    ensures AiFrame(w, r)
    ensures InformedFor(w, Dealer) ==> InformedFor(r, Dealer)
  {
    var (w2, p) := AiInspect(w, f);
    var w3 := AiStep(w2, HandSaw, Saws(w2, p, f));
    var w4 := AiStep(w3, Beer, Drinks(w3, f));
    var w5 := AiStep(w4, Handcuffs, Cuffs(w4, p, f));
    AiFrameTransitive(w, w2, w3);
    AiFrameTransitive(w, w3, w4);
    AiFrameTransitive(w, w4, w5);
    w5
  }

  /** What `AiStep` does to the table, item by item. */
  lemma AiStepApplies(w: World, id: ItemId, go: bool)
    requires w.gun.Valid() && !w.gun.Empty() && AiItem(id)
    requires go && id == Beer ==> w.gun.Remaining() > 2
    ensures var r := AiStep(w, id, go);
      var d := w.dealer.WithoutItem(id);
      && (!go ==> r == w)
      && (go && id == Cigarette ==> r == w.(dealer := d.Healed(1)))
      && (go && id == MagnifyingGlass ==>
            r == w.(dealer := d.(knowledge := d.knowledge.(currentKnown := Some(w.gun.PeekCurrent())))))
      && (go && id == HandSaw ==> r == w.(dealer := d.(dmgMult := 2)))
      && (go && id == Beer ==>
            r == w.(gun := w.gun.Fired(), player := w.player.Forgetting(), dealer := d.Forgetting()))
      && (go && id == Handcuffs ==> r == w.(dealer := d, player := w.player.(skipNext := true)))
  {
  }

  /** A step spends exactly the item its check names. */
  lemma AiStepSpends(w: World, id: ItemId, go: bool)
    requires w.gun.Valid() && !w.gun.Empty() && AiItem(id)
    requires go && id == Beer ==> w.gun.Remaining() > 2
    ensures multiset(AiStep(w, id, go).dealer.inventory) == multiset(w.dealer.inventory) - Spends(go, id)
  {
  }

  /** A step that spends `id` leaves the dealer's holding of every other item as it was. */
  lemma AiStepKeepsOthers(w: World, id: ItemId, go: bool, other: ItemId)
    requires w.gun.Valid() && !w.gun.Empty() && AiItem(id)
    requires go && id == Beer ==> w.gun.Remaining() > 2
    requires other != id
    ensures other in AiStep(w, id, go).dealer.inventory <==> other in w.dealer.inventory
  {
    var r := AiStep(w, id, go);
    assert multiset(r.dealer.inventory)[other] == multiset(w.dealer.inventory)[other];
  }

  /** The items a check spends: `id` when it passes, nothing otherwise. */
  function Spends(go: bool, id: ItemId): (m: multiset<ItemId>)
    ensures go <==> id in m
    ensures |m| <= 1
  {
    if go then multiset{id} else multiset{}
  }

  /** The player, the gun, the turn, the round and the dealer's maximum and restraint are as they were. */
  predicate DealerOnlyChanged(w: World, r: World) {
    && r.player == w.player && r.gun == w.gun && r.turn == w.turn && r.roundNo == w.roundNo
    && r.dealer.maxHp == w.dealer.maxHp && r.dealer.skipNext == w.dealer.skipNext
  }

  /**
   * The first two checks, stated on the table they start from: the
   * Cigarette and the glass are spent exactly when their checks pass, the
   * dealer's HP rises by one after a Cigarette, the glass shows the
   * chambered shell, and nothing else changes.
   */
  lemma AiInspectDecides(w: World, f: Flips)
    requires w.gun.Valid() && !w.gun.Empty()
    ensures var (w2, p) := AiInspect(w, f);
      var shown := w.dealer.knowledge.(currentKnown := Some(w.gun.PeekCurrent()));
      && InspectOutcome(w, f, w2)
      && p == Estimate(w.gun, Looks(w, f), shown)
  {
    var w1 := AiStep(w, Cigarette, Smokes(w, f));
    var (w2, p) := AiInspect(w, f);
    var shown := w.dealer.knowledge.(currentKnown := Some(w.gun.PeekCurrent()));
    assert Looks(w1, f) == Looks(w, f) by {
      AiStepKeepsOthers(w, Cigarette, Smokes(w, f), MagnifyingGlass);
    }
    assert w2 == AiStep(w1, MagnifyingGlass, Looks(w, f));
    assert DealerOnlyChanged(w, w2) && w2.dealer.dmgMult == w.dealer.dmgMult by {
      AiStepApplies(w, Cigarette, Smokes(w, f));
      AiStepApplies(w1, MagnifyingGlass, Looks(w, f));
    }
    assert w2.dealer.hp == (if Smokes(w, f) then w.dealer.hp + 1 else w.dealer.hp) by {
      AiStepApplies(w, Cigarette, Smokes(w, f));
      AiStepApplies(w1, MagnifyingGlass, Looks(w, f));
    }
    assert w2.dealer.knowledge == (if Looks(w, f) then shown else w.dealer.knowledge) by {
      AiStepApplies(w, Cigarette, Smokes(w, f));
      AiStepApplies(w1, MagnifyingGlass, Looks(w, f));
    }
    assert multiset(w2.dealer.inventory) ==
      multiset(w.dealer.inventory) - Spends(Smokes(w, f), Cigarette) - Spends(Looks(w, f), MagnifyingGlass) by {
      AiStepSpends(w, Cigarette, Smokes(w, f));
      AiStepSpends(w1, MagnifyingGlass, Looks(w, f));
    }
  }

  /**
   * The Beer and Handcuffs checks against an estimate `p`, stated on the
   * table they start from: each item is spent exactly when its check
   * passes, Beer racks the gun and clears what both sides knew of the
   * chambered shell, and Handcuffs restrain the player.
   */
  lemma AiFollowUpDecides(w: World, p: Chance, f: Flips)
    requires w.gun.Valid() && !w.gun.Empty()
    ensures var w4 := AiStep(w, Beer, Drinks(w, f));
      var r := AiStep(w4, Handcuffs, Cuffs(w4, p, f));
      && Cuffs(w4, p, f) == Cuffs(w, p, f)
      && FollowUpOutcome(w, r, Drinks(w, f), Cuffs(w, p, f))
  {
    var w4 := AiStep(w, Beer, Drinks(w, f));
    assert Cuffs(w4, p, f) == Cuffs(w, p, f) by {
      AiStepKeepsOthers(w, Beer, Drinks(w, f), Handcuffs);
    }
    var r := AiStep(w4, Handcuffs, Cuffs(w, p, f));
    assert w4 == w.(gun := w.gun.Fired(), player := w.player.Forgetting(), dealer := w.dealer.WithoutItem(Beer).Forgetting())
        || (!Drinks(w, f) && w4 == w) by {
      AiStepApplies(w, Beer, Drinks(w, f));
    }
    assert r == w4.(dealer := w4.dealer.WithoutItem(Handcuffs), player := w4.player.(skipNext := true))
        || (!Cuffs(w, p, f) && r == w4) by {
      AiStepApplies(w4, Handcuffs, Cuffs(w, p, f));
    }
    assert multiset(w4.dealer.inventory) == multiset(w.dealer.inventory) - Spends(Drinks(w, f), Beer) by {
      AiStepSpends(w, Beer, Drinks(w, f));
    }
    assert multiset(r.dealer.inventory) == multiset(w4.dealer.inventory) - Spends(Cuffs(w, p, f), Handcuffs) by {
      AiStepSpends(w4, Handcuffs, Cuffs(w, p, f));
    }
  }

  /** The Hand Saw check spends the saw exactly when it passes and then arms the dealer; nothing else changes. */
  lemma AiSawDecides(w: World, p: Chance, f: Flips)
    requires w.gun.Valid() && !w.gun.Empty()
    ensures var w3 := AiStep(w, HandSaw, Saws(w, p, f));
      && SawOutcome(w, w3, Saws(w, p, f))
      && Drinks(w3, f) == Drinks(w, f) && Cuffs(w3, p, f) == Cuffs(w, p, f)
  {
    AiStepApplies(w, HandSaw, Saws(w, p, f));
    AiStepSpends(w, HandSaw, Saws(w, p, f));
    AiStepKeepsOthers(w, HandSaw, Saws(w, p, f), Beer);
    AiStepKeepsOthers(w, HandSaw, Saws(w, p, f), Handcuffs);
  }

  /**
   * The decisions of one pass, all stated on the table the pass starts
   * from, with `p` the estimate after a glass that shows the truth: each of
   * the five items is spent exactly when its check passes, and then has its
   * effect.  The Cigarette raises the dealer's HP by one, the glass reveals
   * the chambered shell, the Hand Saw sets the multiplier to 2, Beer racks
   * the gun and clears what both sides knew of the chambered shell, and
   * Handcuffs restrain the player.  Nothing else changes.
   */
  lemma AiPassDecides(w: World, f: Flips)
    requires w.gun.Valid() && !w.gun.Empty()
    ensures PassOutcome(w, f, Revealed(w, f), AiMaybeUseItem(w, f))
  {
    var (w2, p) := AiInspect(w, f);
    assert p == Revealed(w, f) && InspectOutcome(w, f, w2) by {
      AiInspectDecides(w, f);
    }
    assert Saws(w2, p, f) == Saws(w, p, f) && Drinks(w2, f) == Drinks(w, f) && Cuffs(w2, p, f) == Cuffs(w, p, f) by {
      ItemsKeptThroughInspect(w, w2, f, p);
    }
    AiPressDecides(w, f, p, w2);
  }

  /** The Hand Saw, Beer and Handcuffs checks after the first two, chained into the outcome of the pass. */
  lemma AiPressDecides(w: World, f: Flips, p: Chance, w2: World)
    requires w.gun.Valid() && !w.gun.Empty() && w2.gun.Valid() && !w2.gun.Empty()
    requires InspectOutcome(w, f, w2)
    requires Saws(w2, p, f) == Saws(w, p, f) && Drinks(w2, f) == Drinks(w, f) && Cuffs(w2, p, f) == Cuffs(w, p, f)
    ensures var w3 := AiStep(w2, HandSaw, Saws(w2, p, f));
      var w4 := AiStep(w3, Beer, Drinks(w3, f));
      PassOutcome(w, f, p, AiStep(w4, Handcuffs, Cuffs(w4, p, f)))
  {
    var w3 := AiStep(w2, HandSaw, Saws(w2, p, f));
    var w4 := AiStep(w3, Beer, Drinks(w3, f));
    var r := AiStep(w4, Handcuffs, Cuffs(w4, p, f));
    AiSawDecides(w2, p, f);
    AiFollowUpDecides(w3, p, f);
    PassComposes(w, f, p, w2, w3, r);
  }

  /**
   * The estimate the dealer's later checks use, as the pass starts: the
   * chambered shell when the glass will be used (it shows the truth), else
   * `p_live`.
   */
  function Revealed(w: World, f: Flips): (p: Chance)
    requires w.gun.Valid() && !w.gun.Empty()
    ensures Looks(w, f) ==> (AtLeast(p, 6, 10) <==> w.gun.PeekCurrent() == Live)
    ensures !Looks(w, f) ==> p == PLive(w.gun)
  {
    Estimate(w.gun, Looks(w, f), w.dealer.knowledge.(currentKnown := Some(w.gun.PeekCurrent())))
  }

  /** What the first two checks leave: see `AiInspectDecides`. */
  predicate InspectOutcome(w: World, f: Flips, w2: World)
    requires !w.gun.Empty()
  {
    && DealerOnlyChanged(w, w2) && w2.dealer.dmgMult == w.dealer.dmgMult
    && w2.dealer.hp == (if Smokes(w, f) then w.dealer.hp + 1 else w.dealer.hp)
    && w2.dealer.knowledge ==
         (if Looks(w, f) then w.dealer.knowledge.(currentKnown := Some(w.gun.PeekCurrent())) else w.dealer.knowledge)
    && multiset(w2.dealer.inventory) ==
         multiset(w.dealer.inventory) - Spends(Smokes(w, f), Cigarette) - Spends(Looks(w, f), MagnifyingGlass)
  }

  /** What the Hand Saw check leaves when its outcome is `saw`. */
  predicate SawOutcome(w: World, w3: World, saw: bool) {
    && DealerOnlyChanged(w, w3)
    && w3.dealer.hp == w.dealer.hp && w3.dealer.knowledge == w.dealer.knowledge
    && w3.dealer.dmgMult == (if saw then 2 else w.dealer.dmgMult)
    && multiset(w3.dealer.inventory) == multiset(w.dealer.inventory) - Spends(saw, HandSaw)
  }

  /** What the Beer and Handcuffs checks leave when their outcomes are `beer` and `cuffs`. */
  predicate FollowUpOutcome(w: World, r: World, beer: bool, cuffs: bool)
    requires w.gun.Valid() && !w.gun.Empty()
  {
    && r.gun == (if beer then w.gun.Fired() else w.gun)
    && r.player == (if beer then w.player.Forgetting() else w.player).(skipNext := w.player.skipNext || cuffs)
    && r.dealer.hp == w.dealer.hp && r.dealer.maxHp == w.dealer.maxHp
    && r.dealer.skipNext == w.dealer.skipNext && r.dealer.dmgMult == w.dealer.dmgMult
    && r.dealer.knowledge == (if beer then w.dealer.knowledge.(currentKnown := None) else w.dealer.knowledge)
    && multiset(r.dealer.inventory) == multiset(w.dealer.inventory) - Spends(beer, Beer) - Spends(cuffs, Handcuffs)
    && r.turn == w.turn && r.roundNo == w.roundNo
  }

  /** What a whole pass leaves, against the estimate `p`. */
  predicate PassOutcome(w: World, f: Flips, p: Chance, r: World)
    requires w.gun.Valid() && !w.gun.Empty()
  {
    && (r.dealer.hp > w.dealer.hp <==> Smokes(w, f))
    && r.dealer.hp == (if Smokes(w, f) then w.dealer.hp + 1 else w.dealer.hp)
    && multiset(r.dealer.inventory) == multiset(w.dealer.inventory)
         - Spends(Smokes(w, f), Cigarette) - Spends(Looks(w, f), MagnifyingGlass)
         - Spends(Saws(w, p, f), HandSaw) - Spends(Drinks(w, f), Beer) - Spends(Cuffs(w, p, f), Handcuffs)
    && r.dealer.dmgMult == (if Saws(w, p, f) then 2 else w.dealer.dmgMult)
    && r.gun == (if Drinks(w, f) then w.gun.Fired() else w.gun)
    && r.dealer.knowledge ==
         (if Drinks(w, f) then w.dealer.knowledge.(currentKnown := None)
          else if Looks(w, f) then w.dealer.knowledge.(currentKnown := Some(w.gun.PeekCurrent()))
          else w.dealer.knowledge)
    && r.player == (if Drinks(w, f) then w.player.Forgetting() else w.player)
                     .(skipNext := w.player.skipNext || Cuffs(w, p, f))
    && r.dealer.skipNext == w.dealer.skipNext && r.dealer.maxHp == w.dealer.maxHp
    && r.turn == w.turn && r.roundNo == w.roundNo
  }

  /** The three phases' outcomes, chained, give the outcome of the pass. */
  lemma PassComposes(w: World, f: Flips, p: Chance, w2: World, w3: World, r: World)
    requires w.gun.Valid() && !w.gun.Empty()
    requires InspectOutcome(w, f, w2)
    requires Saws(w2, p, f) == Saws(w, p, f) && Drinks(w2, f) == Drinks(w, f) && Cuffs(w2, p, f) == Cuffs(w, p, f)
    requires SawOutcome(w2, w3, Saws(w2, p, f))
    requires Drinks(w3, f) == Drinks(w2, f) && Cuffs(w3, p, f) == Cuffs(w2, p, f)
    requires w3.gun.Valid() && !w3.gun.Empty()
    requires FollowUpOutcome(w3, r, Drinks(w3, f), Cuffs(w3, p, f))
    ensures PassOutcome(w, f, p, r)
  {
  }

  /** The first two checks leave the later checks' outcomes as they were. */
  lemma ItemsKeptThroughInspect(w: World, w2: World, f: Flips, p: Chance)
    requires DealerOnlyChanged(w, w2)
    requires multiset(w2.dealer.inventory) ==
      multiset(w.dealer.inventory) - Spends(Smokes(w, f), Cigarette) - Spends(Looks(w, f), MagnifyingGlass)
    ensures Saws(w2, p, f) == Saws(w, p, f) && Drinks(w2, f) == Drinks(w, f) && Cuffs(w2, p, f) == Cuffs(w, p, f)
  {
    assert multiset(w2.dealer.inventory)[HandSaw] == multiset(w.dealer.inventory)[HandSaw];
    assert multiset(w2.dealer.inventory)[Beer] == multiset(w.dealer.inventory)[Beer];
    assert multiset(w2.dealer.inventory)[Handcuffs] == multiset(w.dealer.inventory)[Handcuffs];
  }

  /** `ai_choose_target`: shoot the player when the chambered shell is known live or probably live. */
  function AiChooseTarget(w: World): (t: Side)
    requires w.gun.Valid()
    ensures w.dealer.knowledge.currentKnown == Some(Live) ==> t == Player
    ensures w.dealer.knowledge.currentKnown == Some(Blank) ==> t == Dealer
    ensures w.dealer.knowledge.currentKnown == None ==>
      var (live, blank) := w.gun.CountsRemaining();
      (t == Player <==> 2 * live >= live + blank && live + blank > 0)
  {
    match w.dealer.knowledge.currentKnown
    case Some(Live) => Player
    case Some(Blank) => Dealer
    case None => if AtLeast(PLive(w.gun), 1, 2) then Player else Dealer
  }

  /**
   * A dealer that knows the chambered shell, with knowledge that is sound,
   * shoots itself exactly when the shell is blank; one that does not know it
   * shoots the player exactly when at least half the remaining shells are live.
   */
  lemma AiTargetsSafely(w: World)
    requires w.gun.Valid() && KnowledgeSound(w)
    ensures w.dealer.knowledge.currentKnown.Some? ==>
      (AiChooseTarget(w) == Dealer <==> w.gun.PeekCurrent() == Blank)
    ensures w.dealer.knowledge.currentKnown == None ==>
      var (live, blank) := w.gun.CountsRemaining();
      (AiChooseTarget(w) == Player <==> 2 * live >= live + blank && live + blank > 0)
  {
  }
}
