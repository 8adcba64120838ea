/**
 * The text-scramble title of the landing page.
 *
 * `TextScramble` turns the text shown in an element into a new text over a number of
 * animation frames. Every character position gets a queue entry with the character it
 * shows before (`from`), the one it shows after (`to`), and the frames at which it starts
 * scrambling (`start`) and settles (`end`). Between those two frames the position shows a
 * random glyph. `ScrambledTitle` cycles the scrambler through a fixed list of phrases.
 *
 * `Math.random()` results are parameters (`Span` for `setText`, `Reroll` for `update`),
 * the element's `innerText` is the field `text`, and `requestAnimationFrame` is the caller
 * calling `Update` again while `animating` holds.
 */
module Scramble {

  import opened Options
  import opened Sampling

  /** The scramble glyphs (`\\` is a single backslash): 18 characters. */
  const Glyphs: string := "!<>-_\\/[]{}-=+*^?#"

  /** Start frames and scramble lengths are both `Math.floor(Math.random() * 40)`. */
  const Spread: nat := 40

  /** Once a position shows a glyph, it draws a new one when `Math.random() < 0.28`. */
  const RerollChance: real := 0.28

  /** The last frame at which any entry can still be unsettled is below this one. */
  const LastEnd: nat := 2 * (Spread - 1)

  /**
   * A queue entry. `from` and `to` are one-character strings, or empty past the end of
   * the old or new text. `glyph` is the scramble glyph, absent until first drawn.
   */
  datatype Entry = Entry(from: string, to: string, start: nat, end: nat, glyph: Option<char>)

  /** The two `Math.random()` results `setText` draws for one position. */
  datatype Span = Span(startDraw: Unit, lengthDraw: Unit)

  /** The `Math.random()` results `update` may draw for one scrambling position. */
  datatype Reroll = Reroll(chance: Unit, pick: Unit)

  function Max(a: nat, b: nat): nat
  {
    if a < b then b else a
  }

  /** `s[i] || ""`. */
  function CharAt(s: string, i: nat): string
  {
    if i < |s| then [s[i]] else ""
  }

  /** The timing every entry `setText` creates satisfies. */
  predicate WellTimed(e: Entry)
  {
    e.start < Spread && e.start <= e.end < e.start + Spread
  }

  /** A glyph, once drawn, is one of `Glyphs`. */
  predicate GlyphOk(e: Entry)
  {
    e.glyph.Some? ==> e.glyph.value in Glyphs
  }

  /** Entries `a` and `b` differ at most in their glyph. */
  predicate SameTiming(a: Entry, b: Entry)
  {
    a.from == b.from && a.to == b.to && a.start == b.start && a.end == b.end
  }

  /** The entry `setText` pushes for position `i`. */
  function NewEntry(oldText: string, newText: string, i: nat, d: Span): Entry
  {
    var start := Scaled(d.startDraw, Spread);
    Entry(CharAt(oldText, i), CharAt(newText, i), start, start + Scaled(d.lengthDraw, Spread), None)
  }

  /** The queue `setText(newText)` builds while `oldText` is displayed. */
  function Plan(oldText: string, newText: string, spans: seq<Span>): (q: seq<Entry>)
    requires |spans| == Max(|oldText|, |newText|)
    ensures |q| == Max(|oldText|, |newText|)
    ensures forall i :: 0 <= i < |q| ==>
      && q[i].from == (if i < |oldText| then [oldText[i]] else "")
      && q[i].to == (if i < |newText| then [newText[i]] else "")
      && q[i].glyph == None
      && WellTimed(q[i])
  {
    seq(|spans|, i requires 0 <= i < |spans| => NewEntry(oldText, newText, i, spans[i]))
  }

  /** `this.chars[Math.floor(Math.random() * this.chars.length)]`. */
  function PickGlyph(d: Unit): (c: char)
    ensures c in Glyphs
  {
    Glyphs[Scaled(d, |Glyphs|)]
  }

  /** What `update` does to one entry at frame `frame`. */
  function Rerolled(e: Entry, frame: nat, d: Reroll): Entry
  {
    if frame >= e.end || frame < e.start then e
    else if e.glyph.None? || d.chance < RerollChance then e.(glyph := Some(PickGlyph(d.pick)))
    else e
  }

  /** The queue after `update` at frame `frame`: only scrambling positions change, and only their glyph. */
  function Refresh(q: seq<Entry>, frame: nat, rerolls: seq<Reroll>): (r: seq<Entry>)
    requires |rerolls| == |q|
    ensures |r| == |q|
  {
    seq(|q|, i requires 0 <= i < |q| => Rerolled(q[i], frame, rerolls[i]))
  }

  /**
   * What `update` guarantees about the queue: timings never change, every scrambling
   * position ends up with a glyph from `Glyphs`, a drawn glyph survives unless its reroll
   * chance is below 0.28, and positions outside their scrambling window are untouched.
   */
  lemma RefreshSpec(q: seq<Entry>, frame: nat, rerolls: seq<Reroll>)
    requires |rerolls| == |q|
    ensures var r := Refresh(q, frame, rerolls);
      && (forall i :: 0 <= i < |q| ==> SameTiming(r[i], q[i]))
      && (forall i :: 0 <= i < |q| && q[i].start <= frame < q[i].end ==> r[i].glyph.Some?)
      && (forall i :: 0 <= i < |q| && GlyphOk(q[i]) ==> GlyphOk(r[i]))
      && (forall i :: 0 <= i < |q| && q[i].glyph.Some? && rerolls[i].chance >= RerollChance ==> r[i] == q[i])
      && (forall i :: 0 <= i < |q| && !(q[i].start <= frame < q[i].end) ==> r[i] == q[i])
  {
  }

  /** What one position shows at frame `frame`: the old character, its glyph, then the new character. */
  function Cell(e: Entry, frame: nat): string
  {
    if frame >= e.end then e.to
    else if frame >= e.start then (if e.glyph.Some? then [e.glyph.value] else "")
    else e.from
  }

  /** The text `update` writes for the first `n` positions: their cells, in order. */
  function Render(q: seq<Entry>, n: nat, frame: nat): string
    requires n <= |q|
  {
    if n == 0 then "" else Render(q, n - 1, frame) + Cell(q[n - 1], frame)
  }

  /** The text the first `n` positions settle on: their `to` parts, in order. */
  function Target(q: seq<Entry>, n: nat): string
    requires n <= |q|
  {
    if n == 0 then "" else Target(q, n - 1) + q[n - 1].to
  }

  /** The `complete` counter of `update` after `n` positions: how many of them have settled at frame `frame`. */
  function Done(q: seq<Entry>, n: nat, frame: nat): nat
    requires n <= |q|
  {
    if n == 0 then 0 else Done(q, n - 1, frame) + (if frame >= q[n - 1].end then 1 else 0)
  }

  /** The text written for the first `n` positions depends on those positions only. */
  lemma {:induction false} RenderAgrees(a: seq<Entry>, b: seq<Entry>, n: nat, frame: nat)
    requires n <= |a| && n <= |b|
    requires forall k :: 0 <= k < n ==> a[k] == b[k]
    ensures Render(a, n, frame) == Render(b, n, frame)
  {
    if n > 0 {
      RenderAgrees(a, b, n - 1, frame);
    }
  }

  /** Every entry has settled at frame `frame`. */
  predicate Finished(q: seq<Entry>, frame: nat)
  {
    forall i :: 0 <= i < |q| ==> frame >= q[i].end
  }

  /** The `complete` counter reaches `n` exactly when each of the first `n` entries has settled. */
  lemma {:induction false} DoneCountsFinished(q: seq<Entry>, n: nat, frame: nat)
    requires n <= |q|
    ensures Done(q, n, frame) <= n
    ensures Done(q, n, frame) == n <==> forall i :: 0 <= i < n ==> frame >= q[i].end
  {
    if n > 0 {
      DoneCountsFinished(q, n - 1, frame);
    }
  }

  /** Once the first `n` entries have settled, the text written for them is their target text. */
  lemma {:induction false} RenderFinished(q: seq<Entry>, n: nat, frame: nat)
    requires n <= |q|
    requires forall i :: 0 <= i < n ==> frame >= q[i].end
    ensures Render(q, n, frame) == Target(q, n)
  {
    if n > 0 {
      RenderFinished(q, n - 1, frame);
    }
  }

  /** Changing glyphs does not change the target text. */
  lemma {:induction false} TargetIgnoresGlyphs(q: seq<Entry>, r: seq<Entry>, n: nat)
    requires n <= |q| == |r|
    requires forall i :: 0 <= i < |q| ==> SameTiming(q[i], r[i])
    ensures Target(q, n) == Target(r, n)
  {
    if n > 0 {
      TargetIgnoresGlyphs(q, r, n - 1);
    }
  }

  /** The target of the first `n` planned entries is the matching prefix of the new text. */
  lemma {:induction false} TargetOfPlanPrefix(q: seq<Entry>, newText: string, n: nat)
    requires n <= |q| && |newText| <= |q|
    requires forall i :: 0 <= i < |q| ==> q[i].to == CharAt(newText, i)
    ensures Target(q, n) == newText[..if n < |newText| then n else |newText|]
  {
    if n > 0 {
      TargetOfPlanPrefix(q, newText, n - 1);
      if n <= |newText| {
        assert newText[..n] == newText[..n - 1] + [newText[n - 1]];
      }
    }
  }

  /** The queue `setText(newText)` plans settles on `newText` exactly. */
  lemma PlanSpellsNewText(oldText: string, newText: string, spans: seq<Span>)
    requires |spans| == Max(|oldText|, |newText|)
    ensures var q := Plan(oldText, newText, spans); Target(q, |q|) == newText
  {
    var q := Plan(oldText, newText, spans);
    TargetOfPlanPrefix(q, newText, |q|);
  }

  /** No entry `setText` creates settles after frame `LastEnd` (78). */
  lemma FinishedByLastEnd(q: seq<Entry>, frame: nat)
    requires forall i :: 0 <= i < |q| ==> WellTimed(q[i])
    requires frame >= LastEnd
    ensures Finished(q, frame)
  {
  }

  /**
   * The number of `update` calls made from frame `f` on, up to and including the one that
   * finds every entry settled: at most 79 from frame 0.
   */
  function UpdatesToFinish(q: seq<Entry>, f: nat): (n: nat)
    requires forall i :: 0 <= i < |q| ==> WellTimed(q[i])
    requires f <= LastEnd
    ensures 1 <= n <= LastEnd + 1 - f
    ensures Finished(q, f + n - 1)
    ensures forall k :: f <= k < f + n - 1 ==> !Finished(q, k)
    decreases LastEnd - f
  {
    if Finished(q, f) then 1
    else
      FinishedByLastEnd(q, LastEnd);
      1 + UpdatesToFinish(q, f + 1)
  }

  /**
   * One `update` keeps every entry well timed with a valid glyph and keeps the target; its
   * `complete` count reaches the queue length exactly when every entry has settled, and then
   * the written text is the target. An unsettled queue means the frame is below `LastEnd`.
   */
  lemma RefreshKeepsConsistent(q: seq<Entry>, frame: nat, rerolls: seq<Reroll>)
    requires |rerolls| == |q|
    requires forall i :: 0 <= i < |q| ==> WellTimed(q[i]) && GlyphOk(q[i])
    ensures var r := Refresh(q, frame, rerolls);
      && (forall i :: 0 <= i < |r| ==> WellTimed(r[i]) && GlyphOk(r[i]))
      && Target(r, |r|) == Target(q, |q|)
      && (Done(q, |q|, frame) == |q| <==> Finished(q, frame))
      && (Finished(r, frame) <==> Finished(q, frame))
      && (Finished(q, frame) ==> Render(r, |r|, frame) == Target(q, |q|))
      && (!Finished(q, frame) ==> frame < LastEnd)
  {
    var r := Refresh(q, frame, rerolls);
    RefreshSpec(q, frame, rerolls);
    DoneCountsFinished(q, |q|, frame);
    TargetIgnoresGlyphs(q, r, |q|);
    if Finished(q, frame) {
      assert Finished(r, frame);
      RenderFinished(r, |r|, frame);
    }
    if frame >= LastEnd {
      FinishedByLastEnd(q, frame);
    }
  }

  /**
   * One pass of the loop of `update` over entry `item` at frame `now`: the entry with its
   * glyph redrawn where needed, the cell written for it, and whether it has settled.
   */
  method Visit(item: Entry, now: nat, d: Reroll) returns (next: Entry, cell: string, settled: bool)
    ensures next == Rerolled(item, now, d)
    ensures cell == Cell(next, now)
    ensures settled <==> now >= item.end
  {
    next := item;
    settled := false;
    if now >= item.end {
      settled := true;
      cell := item.to;
    } else if now >= item.start {
      var glyph := item.glyph;
      if glyph.None? || d.chance < RerollChance {
        glyph := Some(PickGlyph(d.pick));
        next := item.(glyph := glyph);
      }
      cell := [glyph.value];
    } else {
      cell := item.from;
    }
  }

  /**
   * The loop of `update`: walk the queue once, redrawing glyphs of scrambling positions,
   * appending each position's cell to the output and counting the settled positions.
   */
  method Sweep(q: seq<Entry>, now: nat, rerolls: seq<Reroll>) returns (items: seq<Entry>, output: string, complete: nat)
    requires |rerolls| == |q|
    ensures items == Refresh(q, now, rerolls)
    ensures output == Render(items, |items|, now)
    ensures complete == Done(q, |q|, now)
  {
    items := q;
    output := "";
    complete := 0;
    var i := 0;
    while i < |items|
      invariant 0 <= i <= |q| == |items|
      invariant forall k :: 0 <= k < i ==> items[k] == Rerolled(q[k], now, rerolls[k])
      invariant forall k :: i <= k < |q| ==> items[k] == q[k]
      invariant output == Render(items, i, now)
      invariant complete == Done(q, i, now)
    {
      var next, cell, settled := Visit(items[i], now, rerolls[i]);
      ghost var before := items;
      items := items[i := next];
      RenderAgrees(before, items, i, now);
      output := output + cell;
      if settled {
        complete := complete + 1;
      }
      i := i + 1;
    }
    assert forall k :: 0 <= k < |q| ==> items[k] == Refresh(q, now, rerolls)[k];
  }

  /**
   * The scrambler attached to one element. `animating` stands for both the pending
   * animation-frame request and the unresolved promise of the last `setText`: the source
   * requests a frame exactly when it does not resolve.
   */
  class TextScramble {
    var text: string
    var queue: seq<Entry>
    var frame: nat
    var animating: bool
    /** The text passed to the last `setText`. */
    ghost var target: string

    /** What holds between any two steps of the animation. */
    ghost predicate Consistent()
      reads this
    {
      && (forall i :: 0 <= i < |queue| ==> WellTimed(queue[i]) && GlyphOk(queue[i]))
      && frame <= LastEnd
      && Target(queue, |queue|) == target
    }

    /** `Consistent`, and `animating` holds exactly while entries remain unsettled. */
    ghost predicate Valid()
      reads this
    {
      && Consistent()
      && (animating ==> frame > 0 && !Finished(queue, frame - 1))
      && (!animating ==> Finished(queue, frame))
    }

    constructor (initialText: string)
      ensures Valid()
      ensures text == initialText && queue == [] && frame == 0 && !animating
    {
      text := initialText;
      queue := [];
      frame := 0;
      animating := false;
      target := "";
    }

    /** `setText`: plan a new queue, cancel the running animation, restart at frame 0 and draw it. */
    method SetText(newText: string, spans: seq<Span>, rerolls: seq<Reroll>)
      requires Valid()
      requires |spans| == Max(|text|, |newText|) && |rerolls| == |spans|
      modifies this
      ensures Valid()
      ensures target == newText
      ensures queue == Refresh(Plan(old(text), newText, spans), 0, rerolls)
      ensures text == Render(queue, |queue|, 0)
      ensures animating == !Finished(queue, 0)
      ensures frame == if animating then 1 else 0
      ensures !animating ==> text == newText
    {
      var oldText := text;
      var length := Max(|oldText|, |newText|);
      queue := [];
      var i := 0;
      while i < length
        invariant 0 <= i <= length
        invariant queue == Plan(oldText, newText, spans)[..i]
      {
        queue := queue + [NewEntry(oldText, newText, i, spans[i])];
        i := i + 1;
      }
      assert queue == Plan(oldText, newText, spans);
      PlanSpellsNewText(oldText, newText, spans);
      animating := false;
      frame := 0;
      target := newText;
      Update(rerolls);
    }

    /** `update`: refresh the glyphs, write the text for the current frame, then stop or advance. */
    method Update(rerolls: seq<Reroll>)
      requires Consistent()
      requires |rerolls| == |queue|
      modifies this
      ensures Valid()
      ensures target == old(target)
      ensures queue == Refresh(old(queue), old(frame), rerolls)
      ensures text == Render(queue, |queue|, old(frame))
      ensures animating == !Finished(old(queue), old(frame))
      ensures frame == if animating then old(frame) + 1 else old(frame)
      ensures !animating ==> text == target
    {
      ghost var q0 := queue;
      var items, output, complete := Sweep(queue, frame, rerolls);
      queue := items;
      RefreshKeepsConsistent(q0, frame, rerolls);
      text := output;
      if complete == |queue| {
        animating := false;
      } else {
        animating := true;
        frame := frame + 1;
      }
    }
  }

  /** The phrases the title cycles through. */
  const Phrases: seq<string> := [
    "Hello Paul!",
    "DAILY REMINDER!",
    "Don't be dumb.",
    "Go to school.",
    "And don't skip the gym!"
  ]

  /** The text the heading shows before the first phrase. */
  const Placeholder: string := "Loading..."

  /**
   * The title component: a scrambler on the heading and the phrase `counter`. The source
   * calls `next` once on mount and again two seconds after each scramble resolves; here
   * the caller calls `Next`.
   */
  class ScrambledTitle {
    const scrambler: TextScramble
    var counter: nat
    /** How many times `next` has run since the title was created. */
    ghost var calls: nat

    ghost predicate Valid()
      reads this, scrambler
    {
      counter < |Phrases| && counter == PhraseIndex(calls) && scrambler.Valid()
    }

    constructor ()
      ensures Valid() && fresh(scrambler)
      ensures counter == 0 && calls == 0 && scrambler.text == Placeholder && !scrambler.animating
    {
      scrambler := new TextScramble(Placeholder);
      counter := 0;
      calls := 0;
    }

    /** `next`: scramble to the current phrase, then advance the counter modulo the number of phrases. */
    method Next(spans: seq<Span>, rerolls: seq<Reroll>)
      requires Valid()
      requires |spans| == Max(|scrambler.text|, |Phrases[counter]|) && |rerolls| == |spans|
      modifies this, scrambler
      ensures Valid()
      ensures scrambler.target == Phrases[old(counter)]
      ensures scrambler.queue == Refresh(Plan(old(scrambler.text), Phrases[old(counter)], spans), 0, rerolls)
      ensures scrambler.text == Render(scrambler.queue, |scrambler.queue|, 0)
      ensures scrambler.animating == !Finished(scrambler.queue, 0)
      ensures scrambler.frame == if scrambler.animating then 1 else 0
      ensures !scrambler.animating ==> scrambler.text == Phrases[old(counter)]
      ensures counter == if old(counter) + 1 == |Phrases| then 0 else old(counter) + 1
      ensures calls == old(calls) + 1
    {
      var phrase := Phrases[counter];
      scrambler.SetText(phrase, spans, rerolls);
      Advance();
    }

    /** `counter = (counter + 1) % phrases.length`. */
    method Advance()
      requires counter == PhraseIndex(calls)
      modifies this`counter, this`calls
      ensures counter == PhraseIndex(calls) && calls == old(calls) + 1
      ensures counter == if old(counter) + 1 == |Phrases| then 0 else old(counter) + 1
    {
      PhraseIndexStep(calls);
      counter := if counter + 1 == |Phrases| then 0 else counter + 1;
      calls := calls + 1;
    }
  }

  /** The value of `counter` after `n` calls of `next`. */
  function PhraseIndex(n: nat): (k: nat)
    ensures k < |Phrases|
  {
    if n == 0 then 0 else (PhraseIndex(n - 1) + 1) % |Phrases|
  }

  /** One more call moves the phrase index one place on, wrapping after the last phrase. */
  lemma PhraseIndexStep(n: nat)
    ensures PhraseIndex(n + 1) == if PhraseIndex(n) + 1 == |Phrases| then 0 else PhraseIndex(n) + 1
  {
  }

  /** The counter cycles 0, 1, 2, 3, 4, 0, ...: after `n` calls it is `n` modulo 5. */
  lemma {:induction false} PhraseIndexCycles(n: nat)
    ensures PhraseIndex(n) == n % |Phrases|
  {
    if n > 0 {
      PhraseIndexCycles(n - 1);
    }
  }
}
