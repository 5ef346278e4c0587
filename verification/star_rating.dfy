/**
 * components/StarRating.tsx: a rating drawn as five stars. The rating is
 * scaled to five stars; the slots below its whole part are full, the next
 * one is half full when the fraction reaches one half, the rest are empty.
 */
module StarRating {
  import opened Wrappers
  import opened Seqs

  /** `maxRating` when the caller gives none. */
  const DefaultMaxRating := 10.0

  /** How many slots are drawn. */
  const SlotCount: nat := 5

  datatype Star = Full | Half | Empty

  /** `(rating / maxRating) * 5`. */
  function Stars(rating: real, maxRating: real): real
    requires maxRating != 0.0
  {
    rating / maxRating * 5.0
  }

  /** JavaScript's `x % 1`: the part after the whole part, with the sign of `x`. */
  function Rem1(x: real): (r: real)
    ensures x >= 0.0 ==> 0.0 <= r < 1.0 && r == x - x.Floor as real
    ensures x < 0.0 ==> -1.0 < r <= 0.0
  {
    if x >= 0.0 then x - x.Floor as real else x + (-x).Floor as real
  }

  /** The kind of slot `index`. */
  function Slot(stars: real, index: nat): Star {
    if index < stars.Floor then Full
    else if index == stars.Floor && Rem1(stars) >= 0.5 then Half
    else Empty
  }

  /** The first `n` slots. */
  function SlotsUpTo(stars: real, n: nat): (slots: seq<Star>)
    ensures |slots| == n
  {
    if n == 0 then [] else SlotsUpTo(stars, n - 1) + [Slot(stars, n - 1)]
  }

  /** What the component draws: five slots, and the number only when asked. */
  datatype Rendering = Rendering(slots: seq<Star>, number: Option<real>)

  function Render(rating: real, maxRating: real, showNumber: bool): (view: Rendering)
    requires maxRating != 0.0
    ensures |view.slots| == SlotCount
    ensures view.number.Some? <==> showNumber
    ensures view.number.Some? ==> view.number.value == rating
  {
    Rendering(SlotsUpTo(Stars(rating, maxRating), SlotCount), if showNumber then Some(rating) else None)
  }

  predicate IsFull(s: Star) { s == Full }
  predicate IsHalf(s: Star) { s == Half }

  /** The rank of a slot kind: full above half above empty. */
  function Fill(s: Star): nat {
    match s
    case Full => 2
    case Half => 1
    case Empty => 0
  }

  lemma {:induction false} SlotsUpToAt(stars: real, n: nat, i: nat)
    requires i < n
    ensures SlotsUpTo(stars, n)[i] == Slot(stars, i)
  {
    if i < n - 1 {
      SlotsUpToAt(stars, n - 1, i);
    }
  }

  /** Slot kinds never increase from left to right: full ones, at most one half, then empty ones. */
  lemma SlotsDescend(rating: real, maxRating: real, i: nat, j: nat)
    requires maxRating != 0.0
    requires i < j < SlotCount
    ensures var slots := Render(rating, maxRating, false).slots;
      Fill(slots[i]) >= Fill(slots[j]) && !(slots[i] == Half && slots[j] == Half)
  {
    var stars := Stars(rating, maxRating);
    SlotsUpToAt(stars, SlotCount, i);
    SlotsUpToAt(stars, SlotCount, j);
  }

  /** Among the first `n` slots, the full ones are the whole part of `stars`, clamped to 0..n. */
  lemma {:induction false} FullUpTo(stars: real, n: nat)
    ensures |Filter(SlotsUpTo(stars, n), IsFull)| == if stars.Floor < 0 then 0 else if stars.Floor > n then n else stars.Floor
  {
    if n > 0 {
      var m := n - 1;
      FullUpTo(stars, m);
      SlotsUpToFilterStep(stars, m, IsFull);
      assert IsFull(Slot(stars, m)) <==> m < stars.Floor;
    }
  }

  /** Filtering one more slot adds it when it passes. */
  lemma SlotsUpToFilterStep(stars: real, m: nat, p: Star -> bool)
    ensures Filter(SlotsUpTo(stars, m + 1), p)
         == Filter(SlotsUpTo(stars, m), p) + (if p(Slot(stars, m)) then [Slot(stars, m)] else [])
  {
    var s := SlotsUpTo(stars, m + 1);
    assert s[..|s| - 1] == SlotsUpTo(stars, m);
  }

  /** Among the first `n` slots there is one half slot when the whole part is one of them and the fraction reaches one half. */
  lemma {:induction false} HalfUpTo(stars: real, n: nat)
    ensures |Filter(SlotsUpTo(stars, n), IsHalf)| == if 0 <= stars.Floor < n && Rem1(stars) >= 0.5 then 1 else 0
  {
    if n > 0 {
      var m := n - 1;
      HalfUpTo(stars, m);
      SlotsUpToFilterStep(stars, m, IsHalf);
    }
  }

  /** A rating within the scale becomes between zero and five stars. */
  lemma StarsInRange(rating: real, maxRating: real)
    requires 0.0 <= rating <= maxRating && maxRating > 0.0
    ensures 0.0 <= Stars(rating, maxRating) <= 5.0
  {
    assert rating / maxRating <= 1.0 by {
      assert rating / maxRating * maxRating == rating;
    }
  }

  /**
   * For a rating within the scale: the full slots are exactly the whole
   * part of the star count, there is at most one half slot, and full plus
   * half slots show the star count rounded down to a half.
   */
  lemma FilledSlots(rating: real, maxRating: real)
    requires 0.0 <= rating <= maxRating && maxRating > 0.0
    ensures var stars, slots := Stars(rating, maxRating), Render(rating, maxRating, false).slots;
      var full, half := |Filter(slots, IsFull)|, |Filter(slots, IsHalf)|;
      && full == stars.Floor
      && half <= 1
      && full as real + 0.5 * half as real <= stars < full as real + 0.5 * half as real + 0.5
  {
    var stars := Stars(rating, maxRating);
    StarsInRange(rating, maxRating);
    FullUpTo(stars, SlotCount);
    HalfUpTo(stars, SlotCount);
  }

  /** Anywhere on the scale, at most one slot is half full. */
  lemma AtMostOneHalf(rating: real, maxRating: real)
    requires maxRating != 0.0
    ensures |Filter(Render(rating, maxRating, false).slots, IsHalf)| <= 1
  {
    HalfUpTo(Stars(rating, maxRating), SlotCount);
  }
}
