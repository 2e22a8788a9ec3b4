/**
 * The shell sequence of the tube-fed shotgun (`Shell` and `Shotgun` in
 * buckshot_roulette_cli.py).  `Magazine` is the value of a shotgun (its
 * shells and its cursor) and carries the rules; the class `Shotgun` is the
 * object the game mutates in place, specified against those rules.
 */
module Shells {

  datatype Shell = Live | Blank

  /** The opposite polarity: what the Inverter makes of a shell. */
  function Flip(s: Shell): (r: Shell)
    ensures r != s
  {
    if s == Live then Blank else Live
  }

  /** Number of occurrences of `x` in `s` (Python's `list.count`). */
  function Count(s: seq<Shell>, x: Shell): (n: nat)
    ensures n <= |s|
  {
    if s == [] then 0 else (if s[0] == x then 1 else 0) + Count(s[1..], x)
  }

  lemma {:induction false} CountIsMultiplicity(s: seq<Shell>, x: Shell)
    ensures Count(s, x) == multiset(s)[x]
  {
    if s != [] {
      CountIsMultiplicity(s[1..], x);
      assert s == [s[0]] + s[1..];
    }
  }

  /** Every shell is either live or blank. */
  lemma {:induction false} CountsCover(s: seq<Shell>)
    ensures Count(s, Live) + Count(s, Blank) == |s|
  {
    if s != [] {
      CountsCover(s[1..]);
    }
  }

  /** `n` copies of `x`, like Python's `[x] * n`. */
  function Repeat(x: Shell, n: nat): (r: seq<Shell>)
    ensures |r| == n
    ensures forall i :: 0 <= i < n ==> r[i] == x
  {
    if n == 0 then [] else [x] + Repeat(x, n - 1)
  }

  lemma {:induction false} RepeatCounts(x: Shell, n: nat)
    ensures Count(Repeat(x, n), x) == n
    ensures Count(Repeat(x, n), Flip(x)) == 0
  {
    if n > 0 {
      RepeatCounts(x, n - 1);
      assert Repeat(x, n)[1..] == Repeat(x, n - 1);
    }
  }

  /** `s` with positions `i` and `j` exchanged. */
  function Swap(s: seq<Shell>, i: nat, j: nat): (r: seq<Shell>)
    requires i < |s| && j < |s|
    ensures |r| == |s| && r[i] == s[j] && r[j] == s[i]
    ensures forall k :: 0 <= k < |s| && k != i && k != j ==> r[k] == s[k]
  {
    s[i := s[j]][j := s[i]]
  }

  lemma SwapPermutes(s: seq<Shell>, i: nat, j: nat)
    requires i < |s| && j < |s|
    ensures |Swap(s, i, j)| == |s|
    ensures multiset(Swap(s, i, j)) == multiset(s)
  {
    var t := s[i := s[j]];
    assert multiset(t) == multiset(s) - multiset{s[i]} + multiset{s[j]};
    assert multiset(t[j := s[i]]) == multiset(t) - multiset{t[j]} + multiset{s[i]};
  }

  /**
   * The draws a shuffle of `n` elements consumes: `draws[i - 1]` is the
   * `randbelow(i + 1)` drawn when position `i` is fixed.
   */
  predicate ShuffleDraws(draws: seq<nat>, n: int) {
    && (if n <= 1 then draws == [] else |draws| == n - 1)
    && forall k :: 0 <= k < |draws| ==> draws[k] <= k + 1
  }

  /**
   * Python's `random.shuffle` (Fisher-Yates): for `i` from the last position
   * down to 1, exchange position `i` with position `draws[i - 1]`.
   */
  function Shuffled(s: seq<Shell>, draws: seq<nat>): (r: seq<Shell>)
    requires |draws| < |s| || draws == []
    requires forall k :: 0 <= k < |draws| ==> draws[k] <= k + 1
    ensures |r| == |s|
    decreases |draws|
  {
    if draws == [] then s
    else
      var i := |draws|;
      Shuffled(Swap(s, i, draws[i - 1]), draws[..i - 1])
  }

  /** A shuffle only rearranges the shells. */
  lemma {:induction false} ShuffledPermutes(s: seq<Shell>, draws: seq<nat>)
    requires |draws| < |s| || draws == []
    requires forall k :: 0 <= k < |draws| ==> draws[k] <= k + 1
    ensures |Shuffled(s, draws)| == |s|
    ensures multiset(Shuffled(s, draws)) == multiset(s)
    decreases |draws|
  {
    if draws != [] {
      var i := |draws|;
      SwapPermutes(s, i, draws[i - 1]);
      ShuffledPermutes(Swap(s, i, draws[i - 1]), draws[..i - 1]);
    }
  }

  /** The value of a shotgun: its shells and the cursor at the chambered shell. */
  datatype Magazine = Magazine(shells: seq<Shell>, index: nat) {

    /** The cursor never passes the end of the tube. */
    predicate Valid() {
      index <= |shells|
    }

    /** `remaining()`: the shells at or after the cursor. */
    function Remaining(): (r: int)
      ensures Valid() ==> 0 <= r <= |shells|
      ensures Empty() <==> r <= 0
    {
      |shells| - index
    }

    predicate Empty() {
      index >= |shells|
    }

    /** `(live, blank)` over the shells at or after the cursor. */
    function CountsRemaining(): (counts: (nat, nat))
      requires Valid()
      ensures counts.0 + counts.1 == Remaining()
    {
      var rest := shells[index..];
      CountsCover(rest);
      (Count(rest, Live), Count(rest, Blank))
    }

    /** `peek_current()`: the chambered shell, always one of the kinds still counted. */
    function PeekCurrent(): (s: Shell)
      requires !Empty()
      ensures Count(shells[index..], s) >= 1
    {
      assert shells[index..][0] == shells[index];
      shells[index]
    }

    /** The magazine after the chambered shell is fired or ejected. */
    function Fired(): (r: Magazine)
      requires !Empty()
      ensures r.shells == shells && r.index == index + 1
      ensures r.Remaining() == Remaining() - 1
    {
      Magazine(shells, index + 1)
    }

    /** The magazine after the chambered shell is flipped; no change when exhausted. */
    function Inverted(): (r: Magazine)
      ensures r.index == index && |r.shells| == |shells|
      ensures Empty() ==> r == this
    {
      if Empty() then this else Magazine(shells[index := Flip(shells[index])], index)
    }
  }

  /** The unshuffled load: `live` live shells followed by `n - live` blanks. */
  function Unshuffled(n: nat, live: nat): (r: seq<Shell>)
    requires live <= n
    ensures |r| == n
  {
    Repeat(Live, live) + Repeat(Blank, n - live)
  }

  /** `Shotgun.load` once `n`, `live_count` and the shuffle's draws are drawn. */
  function Loaded(n: nat, liveCount: nat, draws: seq<nat>): (m: Magazine)
    requires 1 <= liveCount <= n - 1
    requires ShuffleDraws(draws, n)
    ensures m.Valid() && m.index == 0 && |m.shells| == n
  {
    Magazine(Shuffled(Unshuffled(n, liveCount), draws), 0)
  }

  lemma UnshuffledCounts(n: nat, live: nat)
    requires live <= n
    ensures Count(Unshuffled(n, live), Live) == live
    ensures Count(Unshuffled(n, live), Blank) == n - live
  {
    var l, b := Repeat(Live, live), Repeat(Blank, n - live);
    RepeatCounts(Live, live);
    RepeatCounts(Blank, n - live);
    CountIsMultiplicity(l, Live);
    CountIsMultiplicity(l, Blank);
    CountIsMultiplicity(b, Live);
    CountIsMultiplicity(b, Blank);
    CountIsMultiplicity(l + b, Live);
    CountIsMultiplicity(l + b, Blank);
  }

  /** Shuffling keeps the number of shells of each kind. */
  lemma ShuffledCounts(s: seq<Shell>, draws: seq<nat>, x: Shell)
    requires |draws| < |s| || draws == []
    requires forall k :: 0 <= k < |draws| ==> draws[k] <= k + 1
    ensures Count(Shuffled(s, draws), x) == Count(s, x)
  {
    ShuffledPermutes(s, draws);
    CountIsMultiplicity(s, x);
    CountIsMultiplicity(Shuffled(s, draws), x);
  }

  /**
   * A freshly loaded shotgun holds `n` shells between the configured bounds,
   * at least one live and one blank, exactly `liveCount` live and
   * `n - liveCount` blank ones, with the cursor on the first.
   */
  lemma LoadedInvariant(minShells: int, maxShells: int, n: nat, liveCount: nat, draws: seq<nat>)
    requires minShells <= n <= maxShells
    requires 1 <= liveCount <= n - 1
    requires ShuffleDraws(draws, n)
    ensures var m := Loaded(n, liveCount, draws);
      && m.Valid() && m.index == 0
      && minShells <= |m.shells| <= maxShells && |m.shells| == n
      && m.CountsRemaining() == (liveCount, n - liveCount)
      && 1 <= m.CountsRemaining().0 <= n - 1
  {
    var base := Unshuffled(n, liveCount);
    var m := Loaded(n, liveCount, draws);
    ShuffledPermutes(base, draws);
    assert m.shells[0..] == m.shells;
    UnshuffledCounts(n, liveCount);
    ShuffledCounts(base, draws, Live);
    ShuffledCounts(base, draws, Blank);
  }

  /**
   * Firing (or ejecting) consumes exactly the chambered shell: one fewer
   * remaining, and the count of that shell's kind drops by one.
   */
  lemma FiredConsumesOne(m: Magazine)
    requires m.Valid() && !m.Empty()
    ensures m.Fired().Valid() && m.Fired().shells == m.shells
    ensures m.Fired().Remaining() == m.Remaining() - 1
    ensures var (l, b) := m.CountsRemaining();
      m.Fired().CountsRemaining() == if m.PeekCurrent() == Live then (l - 1, b) else (l, b - 1)
  {
    var rest := m.shells[m.index..];
    assert rest[1..] == m.shells[m.index + 1..];
  }

  /**
   * Inverting touches only the chambered shell: the cursor, the length and
   * every other position are unchanged, the chambered shell is flipped, and
   * one shell moves between the live and blank counts.
   */
  lemma InvertedFlipsOnlyCurrent(m: Magazine)
    requires m.Valid()
    ensures var r := m.Inverted();
      && r.Valid() && r.index == m.index && |r.shells| == |m.shells|
      && (forall k :: 0 <= k < |m.shells| && k != m.index ==> r.shells[k] == m.shells[k])
      && (m.Empty() ==> r == m)
      && (!m.Empty() ==> r.PeekCurrent() == Flip(m.PeekCurrent()))
      && var (l, b) := m.CountsRemaining();
         r.CountsRemaining() ==
           if m.Empty() then (l, b)
           else if m.PeekCurrent() == Live then (l - 1, b + 1) else (l + 1, b - 1)
  {
    if !m.Empty() {
      var r := m.Inverted();
      var rest := m.shells[m.index..];
      var rest' := r.shells[r.index..];
      assert rest'[1..] == rest[1..];
      assert rest == [rest[0]] + rest[1..];
      assert rest' == [rest'[0]] + rest'[1..];
    }
  }

  /**
   * The shotgun object: `shells` is the list the game mutates in place and
   * `index` points at the chambered shell.
   */
  class Shotgun {
    var shells: seq<Shell>
    var index: nat

    ghost predicate Valid()
      reads this
    {
      index <= |shells|
    }

    function State(): (m: Magazine)
      reads this
    {
      Magazine(shells, index)
    }

    /** `Shotgun.load(min_shells, max_shells)` given its random draws. */
    constructor Load(minShells: int, maxShells: int, n: nat, liveCount: nat, draws: seq<nat>)
      requires minShells <= n <= maxShells
      requires 1 <= liveCount <= n - 1
      requires ShuffleDraws(draws, n)
      ensures Valid() && State() == Loaded(n, liveCount, draws)
    {
      shells := Shuffled(Unshuffled(n, liveCount), draws);
      index := 0;
    }

    function Remaining(): (r: int)
      reads this
      ensures r == State().Remaining()
    {
      |shells| - index
    }

    function CountsRemaining(): (counts: (nat, nat))
      reads this
      requires Valid()
      ensures counts.0 == Count(shells[index..], Live)
      ensures counts.1 == Count(shells[index..], Blank)
      ensures counts.0 + counts.1 == Remaining()
    {
      State().CountsRemaining()
    }

    function PeekCurrent(): (s: Shell)
      reads this
      requires index < |shells|
      ensures s == State().PeekCurrent()
    {
      shells[index]
    }

    /** Returns the chambered shell and advances the cursor by exactly one. */
    method Fire() returns (s: Shell)
      requires Valid() && index < |shells|
      modifies this
      ensures Valid()
      ensures s == old(shells[index])
      ensures State() == old(State()).Fired()
    {
      s := shells[index];
      index := index + 1;
    }

    /** The Beer effect's rack: the same transition as `Fire`. */
    method EjectCurrent() returns (s: Shell)
      requires Valid() && index < |shells|
      modifies this
      ensures Valid()
      ensures s == old(shells[index])
      ensures State() == old(State()).Fired()
    {
      s := Fire();
    }

    /** Flips the chambered shell in place; does nothing when exhausted. */
    method InvertCurrent()
      requires Valid()
      modifies this
      ensures Valid()
      ensures State() == old(State()).Inverted()
    {
      if index >= |shells| {
        return;
      }
      shells := shells[index := Flip(shells[index])];
    }
  }
}
