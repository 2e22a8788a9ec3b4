/**
 * Per-player state (`Knowledge` and `Actor` in buckshot_roulette_cli.py).
 * `ActorState` is the value of an actor and carries the rules; the class
 * `Actor` is the object the game mutates in place.
 */
module Actors {
  import opened Wrappers
  import opened Shells
  import opened Catalog

  /**
   * What an actor has learnt: the chambered shell (Magnifying Glass) and
   * absolute shell positions (Burner Phone).
   */
  datatype Knowledge = Knowledge(currentKnown: Option<Shell>, knownPositions: map<nat, Shell>)

  /** `Knowledge()`: nothing known. */
  const Unknown: Knowledge := Knowledge(None, map[])

  /** `list.index(x)`: the position of the first occurrence of a held item. */
  function FirstIndex(s: seq<ItemId>, x: ItemId): (i: nat)
    requires x in s
    ensures i < |s| && s[i] == x && x !in s[..i]
  {
    if s[0] == x then 0
    else
      var i := FirstIndex(s[1..], x) + 1;
      assert s[..i] == [s[0]] + s[1..][..i - 1];
      i
  }

  /**
   * Python's `list.remove(x)` guarded by `x in list`: drops one occurrence
   * of a held item; `RemoveFirstKeepsOrder` says it is the first one and
   * that everything else keeps its order.
   */
  function RemoveFirst(s: seq<ItemId>, x: ItemId): (r: seq<ItemId>)
    ensures x in s ==> |r| == |s| - 1 && multiset(r) == multiset(s) - multiset{x}
    ensures x !in s ==> r == s
  {
    if s == [] then []
    else if s[0] == x then
      assert s == [x] + s[1..];
      s[1..]
    else
      var rest := RemoveFirst(s[1..], x);
      RemovedBehindHead(s, x, rest);
      [s[0]] + rest
  }

  /** Putting back `s[0]`, which is not `x`, in front of `s[1..]` with one `x` removed removes one `x` from `s`. */
  lemma RemovedBehindHead(s: seq<ItemId>, x: ItemId, rest: seq<ItemId>)
    requires s != [] && s[0] != x
    requires x in s[1..] ==> |rest| == |s[1..]| - 1 && multiset(rest) == multiset(s[1..]) - multiset{x}
    requires x !in s[1..] ==> rest == s[1..]
    ensures x in s ==> |[s[0]] + rest| == |s| - 1 && multiset([s[0]] + rest) == multiset(s) - multiset{x}
    ensures x !in s ==> [s[0]] + rest == s
  {
    var t := s[1..];
    assert s == [s[0]] + t;
    if x in s {
      assert x in t;
      assert multiset([s[0]] + rest) == multiset([s[0]]) + multiset(rest);
      assert multiset(s) == multiset([s[0]]) + multiset(t);
    }
  }

  /** `list.remove` cuts out the FIRST occurrence, and everything before and after it keeps its order. */
  lemma {:induction false} RemoveFirstKeepsOrder(s: seq<ItemId>, x: ItemId)
    requires x in s
    ensures RemoveFirst(s, x) == s[..FirstIndex(s, x)] + s[FirstIndex(s, x) + 1..]
  {
    if s[0] == x {
      assert RemoveFirst(s, x) == s[1..];
      assert s[..0] + s[1..] == s[1..];
    } else {
      var t := s[1..];
      assert x in t by {
        assert s == [s[0]] + t;
      }
      var rest := RemoveFirst(t, x);
      assert rest == t[..FirstIndex(t, x)] + t[FirstIndex(t, x) + 1..] by {
        RemoveFirstKeepsOrder(t, x);
      }
      assert RemoveFirst(s, x) == [s[0]] + rest;
      FirstOccurrenceShifts(s, x, rest);
    }
  }

  /** The first `x` of `s` sits one place behind the first `x` of `s[1..]` when `s[0]` is not `x`. */
  lemma FirstOccurrenceShifts(s: seq<ItemId>, x: ItemId, rest: seq<ItemId>)
    requires s != [] && s[0] != x && x in s[1..]
    requires rest == s[1..][..FirstIndex(s[1..], x)] + s[1..][FirstIndex(s[1..], x) + 1..]
    ensures [s[0]] + rest == s[..FirstIndex(s, x)] + s[FirstIndex(s, x) + 1..]
  {
    var t := s[1..];
    var i := FirstIndex(t, x);
    assert s[..i + 1] == [s[0]] + t[..i];
    assert FirstIndex(s, x) == i + 1;
    assert s[i + 2..] == t[i + 1..];
  }

  function Min(a: int, b: int): (m: int)
    ensures m <= a && m <= b && (m == a || m == b)
  {
    if a <= b then a else b
  }

  datatype ActorState = ActorState(
    maxHp: int,
    hp: int,
    inventory: seq<ItemId>,
    skipNext: bool,
    dmgMult: int,
    knowledge: Knowledge)
  {
    predicate IsAlive() {
      hp > 0
    }

    /** `heal(n)`: raise HP by `n`, capped at `max_hp`. */
    function Healed(n: int): (r: ActorState)
      ensures r.hp <= maxHp && r.hp <= hp + n && (r.hp == maxHp || r.hp == hp + n)
      ensures r.(hp := hp) == this
    {
      this.(hp := Min(maxHp, hp + n))
    }

    /** `hurt(n)`: lower HP by `n`, with no floor. */
    function Hurt(n: int): (r: ActorState)
      ensures r.hp == hp - n && r.(hp := hp) == this
    {
      this.(hp := hp - n)
    }

    /** The inventory after `pop_item(id)`. */
    function WithoutItem(id: ItemId): (r: ActorState)
      ensures multiset(r.inventory) == multiset(inventory) - multiset{id}
      ensures |r.inventory| == if id in inventory then |inventory| - 1 else |inventory|
      ensures id !in inventory ==> r == this
      ensures r.(inventory := inventory) == this
    {
      var r := this.(inventory := RemoveFirst(inventory, id));
      assert id !in inventory ==> multiset(inventory) - multiset{id} == multiset(inventory) by {
        if id !in inventory {
          assert multiset(inventory)[id] == 0;
        }
      }
      r
    }

    /** `pop_item` takes out the first occurrence of a held item and keeps the rest in order. */
    lemma WithoutItemKeepsOrder(id: ItemId)
      requires id in inventory
      ensures WithoutItem(id).inventory == inventory[..FirstIndex(inventory, id)] + inventory[FirstIndex(inventory, id) + 1..]
    {
      RemoveFirstKeepsOrder(inventory, id);
    }

    /** The chambered shell is no longer known. */
    function Forgetting(): (r: ActorState)
      ensures r.knowledge.currentKnown == None
      ensures r.knowledge.knownPositions == knowledge.knownPositions
      ensures r.(knowledge := knowledge) == this
    {
      this.(knowledge := knowledge.(currentKnown := None))
    }
  }

  /** A healthy actor: HP never above its maximum. */
  predicate HpCapped(a: ActorState) {
    a.hp <= a.maxHp
  }

  /**
   * Healing by a non-negative amount keeps HP capped and never lowers it:
   * the result is `hp + n` or the maximum, whichever is smaller.
   */
  lemma HealClamps(a: ActorState, n: int)
    requires n >= 0 && HpCapped(a)
    ensures var r := a.Healed(n);
      && HpCapped(r) && a.hp <= r.hp
      && (a.hp + n <= a.maxHp ==> r.hp == a.hp + n)
      && (a.hp + n >= a.maxHp ==> r.hp == a.maxHp)
      && r.(hp := a.hp) == a
  {
  }

  /** Hurting subtracts exactly `n`, so enough damage kills. */
  lemma HurtSubtracts(a: ActorState, n: int)
    ensures a.Hurt(n).hp == a.hp - n
    ensures a.Hurt(n).IsAlive() <==> a.hp > n
  {
  }

  /**
   * `take_item` then `pop_item` of the same item gives back the inventory
   * it started from, up to order.
   */
  lemma TakeThenPopRestores(s: seq<ItemId>, x: ItemId)
    ensures multiset(RemoveFirst(s + [x], x)) == multiset(s)
  {
    var t := s + [x];
    assert x in t;
    assert multiset(t) == multiset(s) + multiset{x};
  }

  /** A newly created actor: full HP, nothing held, no status, nothing known. */
  function Fresh(maxHp: int): (a: ActorState)
    ensures a.hp == a.maxHp == maxHp && a.inventory == [] && a.knowledge == Unknown
    ensures !a.skipNext && a.dmgMult == 1
  {
    ActorState(maxHp, maxHp, [], false, 1, Unknown)
  }

  class Actor {
    const ai: bool
    const maxHp: int
    var hp: int
    var inventory: seq<ItemId>
    var skipNext: bool
    var dmgMult: int
    var knowledge: Knowledge

    function State(): (s: ActorState)
      reads this
    {
      ActorState(maxHp, hp, inventory, skipNext, dmgMult, knowledge)
    }

    /** `Actor(name, max_hp=m, hp=m)`, with `ai` set for the dealer. */
    constructor (maxHp: int, ai: bool)
      ensures this.ai == ai
      ensures State() == Fresh(maxHp)
    {
      this.ai := ai;
      this.maxHp := maxHp;
      hp := maxHp;
      inventory := [];
      skipNext := false;
      dmgMult := 1;
      knowledge := Unknown;
    }

    function IsAlive(): (alive: bool)
      reads this
      ensures alive <==> State().IsAlive()
    {
      hp > 0
    }

    method Heal(n: int)
      modifies this
      ensures State() == old(State()).Healed(n)
    {
      hp := Min(maxHp, hp + n);
    }

    method Hurt(n: int)
      modifies this
      ensures State() == old(State()).Hurt(n)
    {
      hp := hp - n;
    }

    method TakeItem(id: ItemId)
      modifies this
      ensures State() == old(State()).(inventory := old(inventory) + [id])
    {
      inventory := inventory + [id];
    }

    /** Removes one occurrence of `id` and returns it, or returns `None` when absent. */
    method PopItem(id: ItemId) returns (r: Option<ItemId>)
      modifies this
      ensures State() == old(State()).WithoutItem(id)
      ensures r == if id in old(inventory) then Some(id) else None
    {
      if id in inventory {
        inventory := RemoveFirst(inventory, id);
        return Some(id);
      }
      return None;
    }
  }
}
