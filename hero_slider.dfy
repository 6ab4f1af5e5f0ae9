/** The home page's slide carousel (src/components/HeroSlider.tsx): which
    slides it shows and how the current slide moves. */
module HeroSlider {
  import Seqs
  import Arith
  import DataTransform

  function IsActive(): DataTransform.ApiSlider -> bool {
    (s: DataTransform.ApiSlider) => s.isActive == "1"
  }

  /** `heroSlides`: the active sliders, in order, converted; every slide
      shown comes from an active slider and every active slider is shown. */
  function HeroSlides(sliders: seq<DataTransform.ApiSlider>): (slides: seq<DataTransform.HeroSlide>)
    ensures |slides| == |Seqs.Filter(IsActive(), sliders)|
    ensures forall i :: 0 <= i < |slides| ==>
              slides[i] == DataTransform.TransformApiSlider(Seqs.Filter(IsActive(), sliders)[i])
    ensures forall s :: s in slides <==>
              exists j :: 0 <= j < |sliders| && sliders[j].isActive == "1"
                && s == DataTransform.TransformApiSlider(sliders[j])
  {
    var active := Seqs.Filter(IsActive(), sliders);
    var slides := seq(|active|, i requires 0 <= i < |active| => DataTransform.TransformApiSlider(active[i]));
    Seqs.MappedFilterMembers(IsActive(), DataTransform.TransformApiSlider, sliders, slides);
    slides
  }

  /** Only active sliders are shown, all of them, in their order. */
  lemma HeroSlidesSpec(sliders: seq<DataTransform.ApiSlider>)
    ensures forall i :: 0 <= i < |Seqs.Filter(IsActive(), sliders)| ==>
              Seqs.Filter(IsActive(), sliders)[i].isActive == "1"
    ensures forall i :: 0 <= i < |sliders| && sliders[i].isActive == "1" ==>
              sliders[i] in Seqs.Filter(IsActive(), sliders)
    ensures Seqs.IsSubsequence(Seqs.Filter(IsActive(), sliders), sliders)
  {
    Seqs.FilterIsSubsequence(IsActive(), sliders);
    forall i | 0 <= i < |Seqs.Filter(IsActive(), sliders)|
      ensures Seqs.Filter(IsActive(), sliders)[i].isActive == "1"
    {
      assert IsActive()(Seqs.Filter(IsActive(), sliders)[i]);
    }
  }

  /** `(prev + 1) % n` */
  function Next(current: nat, n: nat): (r: nat)
    requires n > 0
    ensures r < n
    ensures current < n - 1 ==> r == current + 1
    ensures current == n - 1 ==> r == 0
  {
    if current + 1 < n then
      Arith.ModSmall(current + 1, n);
      (current + 1) % n
    else if current + 1 == n then
      Arith.DivUnique(n, n, 1, 0);
      (current + 1) % n
    else
      (current + 1) % n
  }

  /** `(prev - 1 + n) % n`; the operand is never negative, so the
      remainder of JavaScript and Dafny agree. */
  function Prev(current: nat, n: nat): (r: nat)
    requires n > 0
    ensures r < n
    ensures 0 < current < n ==> r == current - 1
    ensures current == 0 ==> r == n - 1
  {
    if current == 0 then
      Arith.ModSmall(n - 1, n);
      (current - 1 + n) % n
    else if current < n then
      Arith.DivUnique(current - 1 + n, n, 1, current - 1);
      (current - 1 + n) % n
    else
      (current - 1 + n) % n
  }

  /** Both moves land on a slide; from a slide, the previous of the next
      and the next of the previous are where one started; next wraps from
      the last slide to the first and previous from the first to the last. */
  lemma MovesSpec(current: nat, n: nat)
    requires n > 0
    ensures Next(current, n) < n && Prev(current, n) < n
    ensures current < n ==> Prev(Next(current, n), n) == current
    ensures current < n ==> Next(Prev(current, n), n) == current
    ensures Next(n - 1, n) == 0 && Prev(0, n) == n - 1
    ensures current < n - 1 ==> Next(current, n) == current + 1
    ensures 0 < current < n ==> Prev(current, n) == current - 1
  {
    if current < n {
      Arith.ModSucc(current, n);
      Arith.ModSmall(current, n);
      if current == 0 {
        Arith.ModSmall(n - 1, n);
      } else {
        Arith.DivUnique(current - 1 + n, n, 1, current - 1);
        Arith.ModSucc(current - 1, n);
        Arith.ModSmall(current - 1, n);
      }
      Arith.ModSucc(Next(current, n), n);
      Arith.ModSmall(Next(current, n), n);
      if Next(current, n) > 0 {
        Arith.DivUnique(Next(current, n) - 1 + n, n, 1, Next(current, n) - 1);
      } else {
        Arith.ModSmall(n - 1, n);
      }
    }
    Arith.ModSucc(n - 1, n);
    Arith.ModSmall(n - 1, n);
    Arith.ModSmall(current % n, n);
    Arith.ModSucc(current, n);
    if 0 < current < n {
      Arith.DivUnique(current - 1 + n, n, 1, current - 1);
    }
  }

  /** `k` presses of next. */
  function NextTimes(current: nat, n: nat, k: nat): (r: nat)
    requires n > 0
    decreases k
  {
    if k == 0 then current else Next(NextTimes(current, n, k - 1), n)
  }

  lemma {:induction false} NextTimesIsShift(current: nat, n: nat, k: nat)
    requires n > 0 && current < n
    ensures NextTimes(current, n, k) == (current + k) % n
    decreases k
  {
    if k > 0 {
      NextTimesIsShift(current, n, k - 1);
      Arith.ModSucc(current + k - 1, n);
      Arith.ModSmall((current + k - 1) % n, n);
      Arith.ModSucc((current + k - 1) % n, n);
    }
  }

  /** Pressing next as many times as there are slides comes back to the
      slide one started from. */
  lemma NextFullCircle(current: nat, n: nat)
    requires n > 0 && current < n
    ensures NextTimes(current, n, n) == current
  {
    NextTimesIsShift(current, n, n);
    Arith.DivUnique(current + n, n, 1, current);
  }

  /** The carousel's state.  The auto-advance timer is only set when there
      are slides, so its firing is a method that needs slides. */
  class Carousel {
    var slides: seq<DataTransform.HeroSlide>
    var currentSlide: nat

    constructor (slides: seq<DataTransform.HeroSlide>)
      ensures this.slides == slides && currentSlide == 0
    {
      this.slides := slides;
      currentSlide := 0;
    }

    /** Whether an auto-advance is scheduled. */
    predicate AutoAdvanceScheduled()
      reads this
    {
      |slides| > 0
    }

    method NextSlide()
      requires |slides| > 0
      modifies this
      ensures slides == old(slides)
      ensures currentSlide == Next(old(currentSlide), |slides|) && currentSlide < |slides|
    {
      currentSlide := (currentSlide + 1) % |slides|;
    }

    method PrevSlide()
      requires |slides| > 0
      modifies this
      ensures slides == old(slides)
      ensures currentSlide == Prev(old(currentSlide), |slides|) && currentSlide < |slides|
    {
      currentSlide := (currentSlide - 1 + |slides|) % |slides|;
    }

    /** The timer firing: the same move as next. */
    method AutoAdvance()
      requires AutoAdvanceScheduled()
      modifies this
      ensures slides == old(slides)
      ensures currentSlide == Next(old(currentSlide), |slides|)
    {
      NextSlide();
    }
  }
}
