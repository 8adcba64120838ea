/**
 * The falling-character background (`RainingLetters`).
 *
 * Two hundred characters are placed at random positions, in percent of the container.
 * Every animation frame moves each one down by its own speed and sends
 * the ones that have left the bottom back above the top. Every 100 ms up to five random
 * positions are picked to be highlighted.
 */
module Rain {

  import opened Sampling

  /** The symbols a falling character can show: 36 of them. */
  const Alphabet: string := "ABCDEFGHIJKLMNOPQRSTUVWXYZ0123456789"

  /** How many characters `createCharacters` makes. */
  const Count: nat := 200

  /** How many random picks each highlight tick makes. */
  const Picks: nat := 5

  /** The `y` a character that has fallen below 100% restarts from. */
  const Restart: real := -5.0

  /** One falling character; `x` and `y` are percentages of the container. */
  datatype Character = Character(glyph: char, x: real, y: real, speed: real)

  /** The four `Math.random()` results one character is made from. */
  datatype Spawn = Spawn(pick: Unit, x: Unit, y: Unit, speed: Unit)

  /** The character `createCharacters` pushes for the draws `d`. */
  function Make(d: Spawn): Character
  {
    Character(Alphabet[Scaled(d.pick, |Alphabet|)], d.x * 100.0, d.y * 100.0, 0.1 + d.speed * 0.3)
  }

  /** What every freshly made character satisfies. */
  predicate Placed(c: Character)
  {
    c.glyph in Alphabet && 0.0 <= c.x < 100.0 && 0.0 <= c.y < 100.0 && 0.1 <= c.speed < 0.4
  }

  /** The band a character moves in once it is falling. */
  predicate InFlight(c: Character)
  {
    Restart <= c.y < 100.4 && 0.1 <= c.speed < 0.4
  }

  /** `createCharacters`: 200 characters, each made from its own draws. */
  method CreateCharacters(draws: seq<Spawn>) returns (list: seq<Character>)
    requires |draws| == Count
    ensures |list| == Count
    ensures forall i :: 0 <= i < Count ==> list[i] == Make(draws[i]) && Placed(list[i])
  {
    list := [];
    var i := 0;
    while i < Count
      invariant 0 <= i <= Count
      invariant |list| == i
      invariant forall k :: 0 <= k < i ==> list[k] == Make(draws[k]) && Placed(list[k])
    {
      list := list + [Make(draws[i])];
      i := i + 1;
    }
  }

  /** The move of one character in one frame: fall by `speed`, or restart once below 100%. */
  function Advance(c: Character): (r: Character)
    ensures r.glyph == c.glyph && r.x == c.x && r.speed == c.speed
    ensures InFlight(c) ==> InFlight(r)
  {
    c.(y := if c.y > 100.0 then Restart else c.y + c.speed)
  }

  /** `animate`: the frame step, `prev.map(...)` over all characters. */
  function Fall(cs: seq<Character>): (r: seq<Character>)
    ensures |r| == |cs|
    ensures forall i :: 0 <= i < |cs| ==> r[i] == Advance(cs[i])
  {
    if cs == [] then [] else [Advance(cs[0])] + Fall(cs[1..])
  }

  /** The characters after `n` frames. */
  function FallFor(cs: seq<Character>, n: nat): seq<Character>
  {
    if n == 0 then cs else Fall(FallFor(cs, n - 1))
  }

  /** Freshly made characters are in flight. */
  lemma PlacedInFlight(c: Character)
    requires Placed(c)
    ensures InFlight(c)
  {
  }

  /** Any number of frames keeps the length of the list and every character's glyph, `x` and speed. */
  lemma {:induction false} FallForKeeps(cs: seq<Character>, n: nat)
    ensures |FallFor(cs, n)| == |cs|
    ensures forall i :: 0 <= i < |cs| ==>
      FallFor(cs, n)[i].glyph == cs[i].glyph && FallFor(cs, n)[i].x == cs[i].x && FallFor(cs, n)[i].speed == cs[i].speed
  {
    if n > 0 {
      FallForKeeps(cs, n - 1);
    }
  }

  /** Starting from in-flight characters, every `y` stays within [-5, 100.4) for any number of frames. */
  lemma {:induction false} FallForInFlight(cs: seq<Character>, n: nat)
    requires forall i :: 0 <= i < |cs| ==> InFlight(cs[i])
    ensures forall i :: 0 <= i < |FallFor(cs, n)| ==> InFlight(FallFor(cs, n)[i])
  {
    if n > 0 {
      FallForInFlight(cs, n - 1);
    }
  }

  /** The characters `createCharacters` makes stay within [-5, 100.4) for any number of frames. */
  lemma CreatedStayInFlight(list: seq<Character>, n: nat)
    requires forall i :: 0 <= i < |list| ==> Placed(list[i])
    ensures |FallFor(list, n)| == |list|
    ensures forall i :: 0 <= i < |list| ==> Restart <= FallFor(list, n)[i].y < 100.4
  {
    FallForKeeps(list, n);
    FallForInFlight(list, n);
  }

  /**
   * The highlight tick: five draws of `Math.floor(Math.random() * n)` collected in a set.
   * With no characters (`n == 0`) every draw is 0.
   */
  method PickActive(n: nat, draws: seq<Unit>) returns (active: set<nat>)
    requires |draws| == Picks
    ensures active == set k | 0 <= k < Picks :: Scaled(draws[k], n)
    ensures 1 <= |active| <= Picks
    ensures n > 0 ==> forall a :: a in active ==> a < n
    ensures n == 0 ==> active == {0}
  {
    active := {};
    var i := 0;
    while i < Picks
      invariant 0 <= i <= Picks
      invariant active == set k | 0 <= k < i :: Scaled(draws[k], n)
      invariant |active| <= i
      invariant i > 0 ==> Scaled(draws[0], n) in active
    {
      active := active + {Scaled(draws[i], n)};
      i := i + 1;
    }
  }
}
