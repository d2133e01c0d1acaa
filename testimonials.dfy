/**
 * components/Landing/TestimonialsSection.tsx: the testimonial carousel's
 * index and autoplay state.
 */
module Testimonials {

  /** The number of testimonials shown. */
  const Count := 5

  /** `(prev + 1) % testimonials.length`. */
  function NextIndex(i: int): (r: int)
    requires 0 <= i < Count
    ensures 0 <= r < Count
    ensures r == if i == Count - 1 then 0 else i + 1
  {
    (i + 1) % Count
  }

  /** `(prev - 1 + testimonials.length) % testimonials.length`. */
  function PrevIndex(i: int): (r: int)
    requires 0 <= i < Count
    ensures 0 <= r < Count
    ensures r == if i == 0 then Count - 1 else i - 1
  {
    (i - 1 + Count) % Count
  }

  /** Going back after going forward returns to the same testimonial, and vice versa. */
  lemma NextPrevInverse(i: int)
    requires 0 <= i < Count
    ensures PrevIndex(NextIndex(i)) == i
    ensures NextIndex(PrevIndex(i)) == i
  {
  }

  /** Five steps forward come back round to the start. */
  lemma FullCycle(i: int)
    requires 0 <= i < Count
    ensures NextIndex(NextIndex(NextIndex(NextIndex(NextIndex(i))))) == i
  {
  }

  class Carousel {
    var currentIndex: int
    var autoplay: bool

    /** The index names a testimonial. */
    predicate Valid()
      reads this
    {
      0 <= currentIndex < Count
    }

    constructor ()
      ensures Valid() && currentIndex == 0 && autoplay
    {
      currentIndex := 0;
      autoplay := true;
    }

    /** The autoplay interval fires: it advances only while autoplay is on. */
    method Tick()
      requires Valid()
      modifies this
      ensures Valid() && autoplay == old(autoplay)
      ensures currentIndex == if autoplay then NextIndex(old(currentIndex)) else old(currentIndex)
    {
      if autoplay {
        currentIndex := NextIndex(currentIndex);
      }
    }

    /** `handlePrev`: stops autoplay and steps back. */
    method Prev()
      requires Valid()
      modifies this
      ensures Valid() && !autoplay && currentIndex == PrevIndex(old(currentIndex))
    {
      autoplay := false;
      currentIndex := PrevIndex(currentIndex);
    }

    /** `handleNext`: stops autoplay and steps forward. */
    method Next()
      requires Valid()
      modifies this
      ensures Valid() && !autoplay && currentIndex == NextIndex(old(currentIndex))
    {
      autoplay := false;
      currentIndex := NextIndex(currentIndex);
    }

    /** An indicator dot: stops autoplay and jumps to its testimonial. */
    method Select(index: int)
      requires 0 <= index < Count
      modifies this
      ensures Valid() && !autoplay && currentIndex == index
    {
      autoplay := false;
      currentIndex := index;
    }

    /** The mouse enters an arrow button: autoplay pauses. */
    method MouseEnter()
      modifies this
      ensures !autoplay && currentIndex == old(currentIndex)
    {
      autoplay := false;
    }

    /** The mouse leaves an arrow button: autoplay resumes. */
    method MouseLeave()
      modifies this
      ensures autoplay && currentIndex == old(currentIndex)
    {
      autoplay := true;
    }
  }
}
