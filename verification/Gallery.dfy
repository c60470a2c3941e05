/**
 * The full-screen project viewer (components/ProjectGallery.tsx): the list
 * of images of a project, the cyclic previous/next navigation over it, the
 * index reset when the viewer opens or its project changes, and what the
 * viewer shows.
 */
module Gallery {
  import opened Types
  import Catalog

  /** `[project.imageUrl, ...project.gallery]`: the thumbnail first, then the screenshots. */
  function Images(p: Project): (images: seq<string>)
    ensures |images| == 1 + |p.gallery|
    ensures images[0] == p.imageUrl && images[1..] == p.gallery
  {
    [p.imageUrl] + p.gallery
  }

  /** Every catalog project has two to four images, so every catalog viewer shows arrows. */
  lemma CatalogImageCounts()
    ensures forall i | 0 <= i < |Catalog.Projects| :: 2 <= |Images(Catalog.Projects[i])| <= 4
  {
    Catalog.GallerySizes();
  }

  // ---------------------------------------------------------------------------
  // Cyclic navigation

  /** `(prev + 1) % images.length`: one step forward, wrapping from the last image to the first. */
  function NextIndex(i: nat, n: nat): (j: nat)
    requires n > 0
    ensures j < n
    ensures i < n ==> j == if i == n - 1 then 0 else i + 1
  {
    (i + 1) % n
  }

  /** `(prev - 1 + images.length) % images.length`: one step back, wrapping from the first image to the last. */
  function PrevIndex(i: nat, n: nat): (j: nat)
    requires n > 0
    ensures j < n
    ensures i < n ==> j == if i == 0 then n - 1 else i - 1
  {
    (i - 1 + n) % n
  }

  /** Going back undoes going forward. */
  lemma PrevUndoesNext(i: nat, n: nat)
    requires i < n
    ensures PrevIndex(NextIndex(i, n), n) == i
  {
  }

  /** Going forward undoes going back. */
  lemma NextUndoesPrev(i: nat, n: nat)
    requires i < n
    ensures NextIndex(PrevIndex(i, n), n) == i
  {
  }

  /** With a single image both directions stay on it. */
  lemma SingleImageStays(i: nat)
    requires i < 1
    ensures NextIndex(i, 1) == 0 && PrevIndex(i, 1) == 0
  {
  }

  /** `k` presses of the forward arrow, starting at image `i`. */
  function NextTimes(i: nat, k: nat, n: nat): (j: nat)
    requires i < n
    ensures j < n
  {
    if k == 0 then i else NextIndex(NextTimes(i, k - 1, n), n)
  }

  /** Up to `n` forward presses move `k` images on, wrapping past the last image exactly once. */
  lemma {:induction false} NextTimesShift(i: nat, k: nat, n: nat)
    requires i < n && k <= n
    ensures NextTimes(i, k, n) == if i + k < n then i + k else i + k - n
  {
    if k > 0 {
      NextTimesShift(i, k - 1, n);
    }
  }

  /** `n` forward presses walk through every image once and come back to the starting one. */
  lemma FullCycleReturns(i: nat, n: nat)
    requires i < n
    ensures NextTimes(i, n, n) == i
  {
    NextTimesShift(i, n, n);
  }

  // ---------------------------------------------------------------------------
  // The component

  /** What an open viewer shows: the current image, the 1-based counter, the image count and whether the arrows are drawn. */
  datatype Viewer = Viewer(image: string, counter: nat, total: nat, arrows: bool)

  /**
   * The viewer's props (`project`, `isOpen`) and its one piece of state
   * (`currentIndex`). The `useEffect` reset is applied in the same step as
   * the props change that triggers it.
   */
  class ProjectGallery {
    var project: Option<Project>
    var isOpen: bool
    var currentIndex: nat

    /** While the viewer is open on a project, the index points at one of its images. */
    ghost predicate Valid()
      reads this
      ensures Valid() && isOpen && project.Some? ==> currentIndex <= |project.value.gallery|
    {
      isOpen && project.Some? ==> currentIndex < |Images(project.value)|
    }

    /** Mounting: `useState(0)`; the first effect run can only set the index to 0 again. */
    constructor(p: Option<Project>, open: bool)
      ensures Valid()
      ensures project == p && isOpen == open && currentIndex == 0
    {
      project := p;
      isOpen := open;
      currentIndex := 0;
    }

    /**
     * A re-render with new props. The effect runs when `isOpen` or `project`
     * changed, and resets the index only if the viewer is open; closing the
     * viewer keeps the index.
     */
    method ReceiveProps(p: Option<Project>, open: bool)
      requires Valid()
      modifies this
      ensures Valid()
      ensures project == p && isOpen == open
      ensures open && (p != old(project) || !old(isOpen)) ==> currentIndex == 0
      ensures !(open && (p != old(project) || !old(isOpen))) ==> currentIndex == old(currentIndex)
    {
      var changed := p != project || open != isOpen;
      project := p;
      isOpen := open;
      if changed && open {
        currentIndex := 0;
      }
    }

    /** The forward arrow. */
    method NextImage()
      requires Valid() && isOpen && project.Some?
      modifies this
      ensures Valid()
      ensures project == old(project) && isOpen == old(isOpen)
      ensures currentIndex == NextIndex(old(currentIndex), |Images(project.value)|)
    {
      currentIndex := NextIndex(currentIndex, |Images(project.value)|);
    }

    /** The backward arrow. */
    method PrevImage()
      requires Valid() && isOpen && project.Some?
      modifies this
      ensures Valid()
      ensures project == old(project) && isOpen == old(isOpen)
      ensures currentIndex == PrevIndex(old(currentIndex), |Images(project.value)|)
    {
      currentIndex := PrevIndex(currentIndex, |Images(project.value)|);
    }

    /**
     * The rendered viewer: nothing without a project or while closed;
     * otherwise the current image, a counter between 1 and the image count,
     * and arrows exactly when there is more than one image.
     */
    function View(): (v: Option<Viewer>)
      reads this
      requires Valid()
      ensures v.Some? <==> isOpen && project.Some?
      ensures v.Some? ==> v.value.counter == currentIndex + 1 && 1 <= v.value.counter <= v.value.total
      ensures v.Some? ==> v.value.total == |Images(project.value)| && v.value.image == Images(project.value)[v.value.counter - 1]
      ensures v.Some? ==> (v.value.arrows <==> v.value.total > 1)
    {
      if project.None? then None
      else if !isOpen then None
      else
        var images := Images(project.value);
        Some(Viewer(images[currentIndex], currentIndex + 1, |images|, |images| > 1))
    }
  }
}
