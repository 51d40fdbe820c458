/** The banner carousel: an index into the list of slides, moved one step back or forward
    with wrap-around, or set directly from the dots under the slides. */
module Carousel {

  /** `prevSlide`'s new index: from the first slide to the last, otherwise one back. */
  function Prev(i: int, length: nat): (r: int)
    ensures 0 < length && 0 <= i < length ==> 0 <= r < length
  {
    if i == 0 then length - 1 else i - 1
  }

  /** `nextSlide`'s new index: from the last slide to the first, otherwise one forward. */
  function Next(i: int, length: nat): (r: int)
    ensures 0 < length && 0 <= i < length ==> 0 <= r < length
  {
    if i == length - 1 then 0 else i + 1
  }

  /** On a valid index both steps are a step modulo the number of slides. */
  lemma StepsAreModular(i: int, length: nat)
    requires 0 <= i < length
    ensures Next(i, length) == (i + 1) % length
    ensures Prev(i, length) == (i - 1 + length) % length
  {
    if i == length - 1 {
      assert (i + 1) % length == 0;
    } else {
      assert (i + 1) % length == i + 1;
    }
    if i == 0 {
      assert (i - 1 + length) % length == length - 1;
    } else {
      assert (i - 1 + length) % length == i - 1 by {
        assert i - 1 + length == (i - 1) + 1 * length;
      }
    }
  }

  /** Back undoes forward and forward undoes back. */
  lemma StepsInverse(i: int, length: nat)
    requires 0 <= i < length
    ensures Prev(Next(i, length), length) == i
    ensures Next(Prev(i, length), length) == i
  {
  }

  /** `k` steps forward from `i`. */
  function Advance(i: int, length: nat, k: nat): int
  {
    if k == 0 then i else Next(Advance(i, length, k - 1), length)
  }

  /** Forward steps that stay below the last slide just add up. */
  lemma {:induction false} AdvanceWithin(i: int, length: nat, k: nat)
    requires 0 <= i && i + k < length
    ensures Advance(i, length, k) == i + k
  {
    if k > 0 {
      AdvanceWithin(i, length, k - 1);
    }
  }

  /** Stepping `a` then `b` times is stepping `a + b` times. */
  lemma {:induction false} AdvanceAdds(i: int, length: nat, a: nat, b: nat)
    ensures Advance(Advance(i, length, a), length, b) == Advance(i, length, a + b)
  {
    if b > 0 {
      AdvanceAdds(i, length, a, b - 1);
    }
  }

  /** The timer's repeated forward steps visit the slides in a cycle: `length` steps from a
      valid index come back to it, so the sequence of shown slides repeats with that period. */
  lemma AdvanceCycles(i: int, length: nat, k: nat)
    requires 0 <= i < length
    ensures Advance(i, length, length) == i
    ensures Advance(i, length, k + length) == Advance(i, length, k)
  {
    var toLast := length - 1 - i;
    AdvanceWithin(i, length, toLast);
    assert Advance(i, length, toLast + 1) == 0;
    if i > 0 {
      AdvanceWithin(0, length, i - 1);
      assert Advance(0, length, i) == i;
    }
    AdvanceAdds(i, length, toLast + 1, i);
    AdvanceAdds(i, length, length, k);
  }

  /** With no slides, forward from the first index leaves the range rather than wrapping:
      nothing is shown then, and the index is meaningless. */
  lemma NoSlidesDrifts()
    ensures Next(0, 0) == 1 && Prev(0, 0) == -1
  {
  }

  class Slides {
    const slides: seq<string>
    var currentIndex: int

    /** The carousel starts on the first slide. */
    constructor(slides: seq<string>)
      ensures this.slides == slides && currentIndex == 0
    {
      this.slides := slides;
      currentIndex := 0;
    }

    predicate InRange()
      reads this
    {
      0 <= currentIndex < |slides|
    }

    method PrevSlide()
      modifies this
      ensures currentIndex == Prev(old(currentIndex), |slides|)
      ensures old(InRange()) ==> InRange()
    {
      currentIndex := Prev(currentIndex, |slides|);
    }

    method NextSlide()
      modifies this
      ensures currentIndex == Next(old(currentIndex), |slides|)
      ensures old(InRange()) ==> InRange()
    {
      currentIndex := Next(currentIndex, |slides|);
    }

    /** `goToSlide`: the index is taken as given, without a bounds check. */
    method GoToSlide(slideIndex: int)
      modifies this
      ensures currentIndex == slideIndex
    {
      currentIndex := slideIndex;
    }
  }
}
