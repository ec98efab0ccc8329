/** The trending carousel (frontend/src/components/HeroSection.js): an index
    into the slides that the arrows, the dots and a six-second timer move,
    and an autoplay flag that manual navigation switches off. The timers
    themselves are outside the model: `Tick` is one firing of the interval
    and `ResumeAutoPlay` the ten-second timeout that `goToSlide` schedules. */
module HeroSection {
  import opened Common
  import opened Availability
  import opened ContentJson

  /** `(prev + 1) % movies.length`. */
  function NextIndex(i: int, n: int): int
    requires n > 0
  {
    JsRem(i + 1, n)
  }

  /** `(prev - 1 + movies.length) % movies.length`. */
  function PreviousIndex(i: int, n: int): int
    requires n > 0
  {
    JsRem(i - 1 + n, n)
  }

  /** A step forward moves one slide on, from the last back to the first. */
  lemma NextIndexCases(i: int, n: int)
    requires 0 <= i < n
    ensures NextIndex(i, n) == if i + 1 < n then i + 1 else 0
  {
    if i + 1 == n {
      assert (i + 1) % n == n % n == 0;
    }
  }

  /** A step back moves one slide back, from the first round to the last. */
  lemma PreviousIndexCases(i: int, n: int)
    requires 0 <= i < n
    ensures PreviousIndex(i, n) == if i > 0 then i - 1 else n - 1
  {
    if i > 0 {
      assert (i - 1 + n) % n == ((i - 1) + 1 * n) % n == i - 1;
    }
  }

  /** Both steps keep an index in range. */
  lemma StepsStayInRange(i: int, n: int)
    requires 0 <= i < n
    ensures 0 <= NextIndex(i, n) < n
    ensures 0 <= PreviousIndex(i, n) < n
  {
    NextIndexCases(i, n);
    PreviousIndexCases(i, n);
  }

  /** Next then previous, or previous then next, comes back to the same slide. */
  lemma PreviousUndoesNext(i: int, n: int)
    requires 0 <= i < n
    ensures PreviousIndex(NextIndex(i, n), n) == i
    ensures NextIndex(PreviousIndex(i, n), n) == i
  {
    NextIndexCases(i, n);
    PreviousIndexCases(i, n);
    PreviousIndexCases(NextIndex(i, n), n);
    NextIndexCases(PreviousIndex(i, n), n);
  }

  /** The index after `k` steps forward. */
  function Advance(i: int, n: int, k: nat): int
    requires n > 0
  {
    if k == 0 then i else NextIndex(Advance(i, n, k - 1), n)
  }

  /** Up to a full round, `k` steps forward land `k` slides on, wrapping
      past the last slide once. */
  lemma {:induction false} AdvanceWithinRound(i: int, n: int, k: nat)
    requires 0 <= i < n && k <= n
    ensures Advance(i, n, k) == if i + k < n then i + k else i + k - n
  {
    if k > 0 {
      AdvanceWithinRound(i, n, k - 1);
      NextIndexCases(Advance(i, n, k - 1), n);
    }
  }

  /** As many steps forward as there are slides come back to the start. */
  lemma FullCycle(i: int, n: int)
    requires 0 <= i < n
    ensures Advance(i, n, n) == i
  {
    AdvanceWithinRound(i, n, n);
  }

  /** The carousel's state for a list of `slideCount` slides. */
  class HeroCarousel {
    const slideCount: nat
    var currentIndex: int
    var isAutoPlaying: bool

    /** The index names a slide whenever there is one. */
    predicate Valid()
      reads this
    {
      slideCount == 0 || 0 <= currentIndex < slideCount
    }

    constructor(n: nat)
      ensures slideCount == n && currentIndex == 0 && isAutoPlaying
      ensures Valid()
    {
      slideCount := n;
      currentIndex := 0;
      isAutoPlaying := true;
    }

    /** The right arrow, shown only when there are slides. */
    method GoToNext()
      requires slideCount > 0
      modifies this
      ensures currentIndex == NextIndex(old(currentIndex), slideCount)
      ensures !isAutoPlaying
      ensures old(Valid()) ==> Valid()
    {
      if 0 <= currentIndex < slideCount {
        StepsStayInRange(currentIndex, slideCount);
      }
      currentIndex := JsRem(currentIndex + 1, slideCount);
      isAutoPlaying := false;
    }

    /** The left arrow, shown only when there are slides. */
    method GoToPrevious()
      requires slideCount > 0
      modifies this
      ensures currentIndex == PreviousIndex(old(currentIndex), slideCount)
      ensures !isAutoPlaying
      ensures old(Valid()) ==> Valid()
    {
      if 0 <= currentIndex < slideCount {
        StepsStayInRange(currentIndex, slideCount);
      }
      currentIndex := JsRem(currentIndex - 1 + slideCount, slideCount);
      isAutoPlaying := false;
    }

    /** A dot: jump to slide `k` and pause autoplay. */
    method GoToSlide(k: int)
      modifies this
      ensures currentIndex == k && !isAutoPlaying
      ensures 0 <= k < slideCount ==> Valid()
    {
      currentIndex := k;
      isAutoPlaying := false;
    }

    /** The timeout `goToSlide` schedules. */
    method ResumeAutoPlay()
      modifies this
      ensures isAutoPlaying && currentIndex == old(currentIndex)
    {
      isAutoPlaying := true;
    }

    /** One firing of the interval, which is running only while autoplay is
        on and there are slides. */
    method Tick() returns (fired: bool)
      modifies this
      ensures fired <==> old(isAutoPlaying) && slideCount > 0
      ensures fired ==> currentIndex == NextIndex(old(currentIndex), slideCount)
      ensures !fired ==> currentIndex == old(currentIndex)
      ensures isAutoPlaying == old(isAutoPlaying)
      ensures old(Valid()) ==> Valid()
    {
      fired := isAutoPlaying && slideCount > 0;
      if fired {
        if 0 <= currentIndex < slideCount {
          StepsStayInRange(currentIndex, slideCount);
        }
        currentIndex := JsRem(currentIndex + 1, slideCount);
      }
    }
  }

  /** `handleWatchNow`: the first platform's page when the movie has one,
      nothing (a toast) otherwise. */
  function WatchNowTarget(movie: Content): (url: Option<string>)
    ensures url.Some? <==> movie.platforms.Some? && |movie.platforms.value| > 0
    ensures url.Some? ==> url.value == movie.platforms.value[0].url
  {
    if movie.platforms.Some? && |movie.platforms.value| > 0 then Some(movie.platforms.value[0].url) else None
  }

  /** What the carousel renders. */
  datatype HeroView =
    | Placeholder
    | Slide(movie: Content, genres: seq<string>, availableOn: seq<PlatformLink>, dots: seq<bool>)

  /** The placeholder for an empty list; otherwise the current movie, its
      first two genres, its first three platforms, and one dot per slide with
      the current one lit. */
  function Render(movies: seq<Content>, index: int): (view: HeroView)
    requires |movies| == 0 || 0 <= index < |movies|
    ensures view.Placeholder? <==> |movies| == 0
    ensures view.Slide? ==> view.movie == movies[index]
    ensures view.Slide? ==> var genres := movies[index].genreNames;
      if genres.None? then view.genres == []
      else |view.genres| == Min(2, |genres.value|) && view.genres == genres.value[..|view.genres|]
    ensures view.Slide? ==> var platforms := movies[index].platforms;
      if platforms.None? then view.availableOn == []
      else |view.availableOn| == Min(3, |platforms.value|) && view.availableOn == platforms.value[..|view.availableOn|]
    ensures view.Slide? ==> |view.dots| == |movies| && forall i :: 0 <= i < |movies| ==> (view.dots[i] <==> i == index)
  {
    if |movies| == 0 then Placeholder
    else
      var movie := movies[index];
      var genres := if movie.genreNames.None? then [] else movie.genreNames.value[..Min(2, |movie.genreNames.value|)];
      var available := if movie.platforms.None? then [] else movie.platforms.value[..Min(3, |movie.platforms.value|)];
      Slide(movie, genres, available, seq(|movies|, i => i == index))
  }
}
