/**
 * The testimonials section (src/components/home/Testimonials.tsx): the video
 * carousel's index with its previous/next buttons, and the two text sliders,
 * each of which renders its list twice so that the scrolling loops without a
 * gap, the second one over a reversed copy of the list.
 */
module Testimonials {

  /** A video testimonial. */
  datatype VideoTestimonial = VideoTestimonial(id: int, url: string, title: string)

  /** A text testimonial. */
  datatype TextTestimonial = TextTestimonial(id: int, content: string, author: string, company: string)

  /** The index after the "next" button: the last index wraps to 0. */
  function NextIndex(prev: int, len: int): (r: int)
    ensures 0 <= prev < len ==> 0 <= r < len
    ensures 0 <= prev < len - 1 ==> r == prev + 1
    ensures prev == len - 1 ==> r == 0
  {
    if prev == len - 1 then 0 else prev + 1
  }

  /** The index after the "previous" button: 0 wraps to the last index. */
  function PrevIndex(prev: int, len: int): (r: int)
    ensures 0 <= prev < len ==> 0 <= r < len
    ensures 0 < prev < len ==> r == prev - 1
    ensures prev == 0 ==> r == len - 1
  {
    if prev == 0 then len - 1 else prev - 1
  }

  /** On a valid index the two buttons undo each other. */
  lemma PrevNextInverse(i: int, len: int)
    requires 0 <= i < len
    ensures PrevIndex(NextIndex(i, len), len) == i
    ensures NextIndex(PrevIndex(i, len), len) == i
  {
  }

  /** The index after `n` clicks on "next". */
  function Advance(i: int, len: int, n: nat): int
  {
    if n == 0 then i else NextIndex(Advance(i, len, n - 1), len)
  }

  /** Clicks add up: `a` clicks and then `b` clicks are `a + b` clicks. */
  lemma {:induction false} AdvanceSplit(i: int, len: int, a: nat, b: nat)
    ensures Advance(i, len, a + b) == Advance(Advance(i, len, a), len, b)
  {
    if b > 0 {
      AdvanceSplit(i, len, a, b - 1);
    }
  }

  /** Short of the end, `k` clicks on "next" move forward by `k`. */
  lemma {:induction false} AdvanceForward(i: int, len: int, k: nat)
    requires 0 <= i && i + k < len
    ensures Advance(i, len, k) == i + k
  {
    if k > 0 {
      AdvanceForward(i, len, k - 1);
    }
  }

  /** Clicks on "next" never leave the valid indices. */
  lemma {:induction false} AdvanceInRange(i: int, len: int, n: nat)
    requires 0 <= i < len
    ensures 0 <= Advance(i, len, n) < len
  {
    if n > 0 {
      AdvanceInRange(i, len, n - 1);
    }
  }

  /** `len` clicks on "next" come back to where they started. */
  lemma AdvanceFullCircle(i: int, len: int)
    requires 0 <= i < len
    ensures Advance(i, len, len) == i
  {
    var toEnd: nat := len - 1 - i;
    AdvanceForward(i, len, toEnd);
    assert Advance(i, len, toEnd + 1) == 0;
    AdvanceSplit(i, len, toEnd + 1, i);
    AdvanceForward(0, len, i);
  }

  /** The video player's state: the list of videos and the index shown. */
  class Carousel {
    const videos: seq<VideoTestimonial>
    var currentVideo: int

    /** The index always points into the list. */
    ghost predicate Valid()
      reads this
    {
      0 <= currentVideo < |videos|
    }

    /** The carousel starts on the first video. */
    constructor(videos: seq<VideoTestimonial>)
      requires |videos| > 0
      ensures this.videos == videos && currentVideo == 0
      ensures Valid()
    {
      this.videos := videos;
      currentVideo := 0;
    }

    /** The video in the phone frame, `videoTestimonials[currentVideo]`. */
    function Current(): (v: VideoTestimonial)
      requires Valid()
      reads this
      ensures v in videos
    {
      videos[currentVideo]
    }

    /** The "previous" button. */
    method PrevClick()
      requires Valid()
      modifies this
      ensures currentVideo == PrevIndex(old(currentVideo), |videos|)
      ensures Valid()
    {
      currentVideo := if currentVideo == 0 then |videos| - 1 else currentVideo - 1;
    }

    /** The "next" button. */
    method NextClick()
      requires Valid()
      modifies this
      ensures currentVideo == NextIndex(old(currentVideo), |videos|)
      ensures Valid()
    {
      currentVideo := if currentVideo == |videos| - 1 then 0 else currentVideo + 1;
    }
  }

  /** The React key of a rendered card: the testimonial's id, and whether it is the clone (`${id}-clone`). */
  datatype CardKey = CardKey(id: int, clone: bool)

  /** The cards a slider renders: the list, then the list again. */
  function SliderCards(testimonials: seq<TextTestimonial>): seq<TextTestimonial> {
    testimonials + testimonials
  }

  /** The keys of the rendered cards, in order. */
  function SliderKeys(testimonials: seq<TextTestimonial>): seq<CardKey> {
    seq(|testimonials|, i requires 0 <= i < |testimonials| => CardKey(testimonials[i].id, false)) +
    seq(|testimonials|, i requires 0 <= i < |testimonials| => CardKey(testimonials[i].id, true))
  }

  /**
   * The slider shows every testimonial twice: card `i` and card `i + n` are
   * the same testimonial, so scrolling by half the content lands on an
   * identical picture.
   */
  lemma SliderCardsRepeat(testimonials: seq<TextTestimonial>)
    ensures |SliderCards(testimonials)| == 2 * |testimonials|
    ensures forall i :: 0 <= i < |testimonials| ==>
      SliderCards(testimonials)[i] == testimonials[i] &&
      SliderCards(testimonials)[i + |testimonials|] == testimonials[i]
    ensures multiset(SliderCards(testimonials)) == multiset(testimonials) + multiset(testimonials)
  {
  }

  /** With distinct ids in the list, the doubled list's keys are distinct too. */
  lemma SliderKeysDistinct(testimonials: seq<TextTestimonial>)
    requires forall i, j :: 0 <= i < j < |testimonials| ==> testimonials[i].id != testimonials[j].id
    ensures |SliderKeys(testimonials)| == |SliderCards(testimonials)|
    ensures forall i, j :: 0 <= i < j < |SliderKeys(testimonials)| ==> SliderKeys(testimonials)[i] != SliderKeys(testimonials)[j]
  {
    var n := |testimonials|;
    var keys := SliderKeys(testimonials);
    forall i, j | 0 <= i < j < |keys|
      ensures keys[i] != keys[j]
    {
      if j < n || n <= i {
        var a, b := if i < n then i else i - n, if j < n then j else j - n;
        assert keys[i].id == testimonials[a].id && keys[j].id == testimonials[b].id;
      } else {
        assert !keys[i].clone && keys[j].clone;
      }
    }
  }

  /** The order-reversed sequence. */
  function Reversed<T>(s: seq<T>): (r: seq<T>)
    ensures |r| == |s|
  {
    seq(|s|, i requires 0 <= i < |s| => s[|s| - 1 - i])
  }

  /** Reversing twice gives the list back, and reversing keeps every element. */
  lemma ReversedSpec<T>(s: seq<T>)
    ensures Reversed(Reversed(s)) == s
    ensures multiset(Reversed(s)) == multiset(s)
    ensures Reversed(s) == [] || (Reversed(s)[0] == s[|s| - 1] && Reversed(s)[|s| - 1] == s[0])
  {
    ReversedMultiset(s);
  }

  lemma {:induction false} ReversedMultiset<T>(s: seq<T>)
    ensures multiset(Reversed(s)) == multiset(s)
  {
    if s != [] {
      var t := s[..|s| - 1];
      ReversedMultiset(t);
      assert Reversed(s) == [s[|s| - 1]] + Reversed(t);
      assert s == t + [s[|s| - 1]];
    }
  }

  /** `Array.prototype.reverse`: reverses the array in place. */
  method Reverse<T>(a: array<T>)
    modifies a
    ensures a[..] == Reversed(old(a[..]))
  {
    var i, j := 0, a.Length - 1;
    while i < j
      invariant 0 <= i <= a.Length && j == a.Length - 1 - i
      invariant forall k :: 0 <= k < i ==> a[k] == old(a[a.Length - 1 - k]) && a[a.Length - 1 - k] == old(a[k])
      invariant forall k :: i <= k < a.Length - i ==> a[k] == old(a[k])
    {
      a[i], a[j] := a[j], a[i];
      i, j := i + 1, j - 1;
    }
  }

  /** `[...a]`: a fresh array with the same elements. */
  method Spread<T>(a: array<T>) returns (b: array<T>)
    ensures fresh(b)
    ensures b[..] == a[..]
  {
    b := new T[a.Length](k requires 0 <= k < a.Length reads a => a[k]);
  }

  /**
   * `[...textTestimonials].reverse()`: the second slider's list is the
   * reversed list, and the original array is left as it was.
   */
  method ReversedCopy<T>(a: array<T>) returns (b: array<T>)
    ensures fresh(b)
    ensures b[..] == Reversed(a[..])
    ensures a[..] == old(a[..])
  {
    b := Spread(a);
    Reverse(b);
  }

  /** A text slider's pause state: hovering pauses the scrolling, leaving resumes it. */
  class Slider {
    const testimonials: seq<TextTestimonial>
    var isPaused: bool

    constructor(testimonials: seq<TextTestimonial>)
      ensures this.testimonials == testimonials && !isPaused
    {
      this.testimonials := testimonials;
      isPaused := false;
    }

    method MouseEnter()
      modifies this
      ensures isPaused
    {
      isPaused := true;
    }

    method MouseLeave()
      modifies this
      ensures !isPaused
    {
      isPaused := false;
    }
  }

  /** The site's video testimonials. */
  function VideoTestimonials(): seq<VideoTestimonial> {
    [
      VideoTestimonial(1, "https://drive.google.com/file/d/1X04fjJPFVjgm4caTk6GWmub0B0lAlx9m/preview", "Client Nexus Growthh"),
      VideoTestimonial(2, "https://drive.google.com/file/d/1Fne2xejDttvQHV87rt_e4DlNAnPWArcP/preview", "Client Usman")
    ]
  }

  /** With the site's two videos, each button toggles between them. */
  lemma SiteCarouselAlternates(i: int)
    requires 0 <= i < |VideoTestimonials()|
    ensures NextIndex(i, |VideoTestimonials()|) == 1 - i
    ensures PrevIndex(i, |VideoTestimonials()|) == 1 - i
  {
  }
}
