/** The image gallery of `src/pages/ProjectDetail.tsx`: the grouping of a project's images by
    category and the lightbox that steps through them. Loading the project and its images,
    and locking the page scroll, are not modelled. */
module ProjectDetail {
  import opened Types
  import opened Seqs

  // ---------------------------------------------------------------------------------------
  // Index arithmetic

  /** JavaScript's `a % n`: the remainder truncated toward zero, so it takes the sign of `a`. */
  function JsRem(a: int, n: int): (r: int)
    requires n != 0
    ensures a >= 0 ==> 0 <= r < (if n > 0 then n else -n)
    ensures a >= 0 && n > 0 ==> r == a % n
  {
    var m := if n > 0 then n else -n;
    if a >= 0 then a % m else -((-a) % m)
  }

  /** `nextImage`: `(prev + 1) % images.length`. */
  function NextIndex(i: int, n: int): int
    requires n > 0
  {
    JsRem(i + 1, n)
  }

  /** `prevImage`: `(prev - 1 + images.length) % images.length`. */
  function PrevIndex(i: int, n: int): int
    requires n > 0
  {
    JsRem(i - 1 + n, n)
  }

  /** From a shown image, both steps land on a shown image: the next one wraps from the last
      to the first, the previous one from the first to the last. */
  lemma StepsStayInRange(i: int, n: int)
    requires 0 <= i < n
    ensures 0 <= NextIndex(i, n) < n && 0 <= PrevIndex(i, n) < n
    ensures NextIndex(i, n) == (if i == n - 1 then 0 else i + 1)
    ensures PrevIndex(i, n) == (if i == 0 then n - 1 else i - 1)
  {
  }

  /** Stepping back undoes stepping forward, and the other way round. */
  lemma PrevUndoesNext(i: int, n: int)
    requires 0 <= i < n
    ensures PrevIndex(NextIndex(i, n), n) == i
    ensures NextIndex(PrevIndex(i, n), n) == i
  {
    StepsStayInRange(i, n);
    StepsStayInRange(NextIndex(i, n), n);
    StepsStayInRange(PrevIndex(i, n), n);
  }

  /** `k` presses of the right arrow. */
  function NextTimes(i: int, n: int, k: nat): int
    requires n > 0
  {
    if k == 0 then i else NextIndex(NextTimes(i, n, k - 1), n)
  }

  /** Before the last image is passed, `k` steps forward move `k` images on. */
  lemma {:induction false} NextTimesNoWrap(i: int, n: int, k: nat)
    requires 0 <= i && i + k < n
    ensures NextTimes(i, n, k) == i + k
  {
    if k > 0 {
      NextTimesNoWrap(i, n, k - 1);
      StepsStayInRange(i + k - 1, n);
    }
  }

  /** Steps compose: `a` steps and then `b` steps are `a + b` steps. */
  lemma {:induction false} NextTimesAdd(i: int, n: int, a: nat, b: nat)
    requires n > 0
    ensures NextTimes(i, n, a + b) == NextTimes(NextTimes(i, n, a), n, b)
  {
    if b > 0 {
      NextTimesAdd(i, n, a, b - 1);
    }
  }

  /** Going round once, one step per image, comes back to the image started from. */
  lemma FullCircle(i: int, n: int)
    requires 0 <= i < n
    ensures NextTimes(i, n, n) == i
  {
    var a := n - 1 - i;
    NextTimesNoWrap(i, n, a);
    StepsStayInRange(n - 1, n);
    assert NextTimes(i, n, a + 1) == 0;
    NextTimesAdd(i, n, a + 1, i);
    NextTimesNoWrap(0, n, i);
  }

  // ---------------------------------------------------------------------------------------
  // The lightbox

  /** `KeyboardEvent.key`, for the keys the handler tests. */
  datatype Key = Escape | ArrowRight | ArrowLeft | OtherKey

  /** The lightbox state: the number of images, whether it is open, and the current index. */
  datatype LightboxView = LightboxView(count: nat, lightboxOpen: bool, currentImageIndex: int)

  /** While open, the index names one of the images. */
  predicate ShowsImage(v: LightboxView)
  {
    v.lightboxOpen ==> 0 <= v.currentImageIndex < v.count
  }

  /** `openLightbox(index)`: that image, and the lightbox open. */
  function LightboxOpened(v: LightboxView, index: int): LightboxView
  {
    v.(lightboxOpen := true, currentImageIndex := index)
  }

  /** `closeLightbox`: closed, on the same index. */
  function LightboxClosed(v: LightboxView): LightboxView
  {
    v.(lightboxOpen := false)
  }

  /** `handleKeyDown`: nothing while closed; Escape closes, the right arrow steps forward,
      the left arrow back, any other key does nothing. */
  function KeyDown(v: LightboxView, key: Key): (w: LightboxView)
    requires ShowsImage(v)
    ensures ShowsImage(w)
    ensures w.count == v.count
  {
    if !v.lightboxOpen then v
    else
      StepsStayInRange(v.currentImageIndex, v.count);
      match key
      case Escape => LightboxClosed(v)
      case ArrowRight => v.(currentImageIndex := NextIndex(v.currentImageIndex, v.count))
      case ArrowLeft => v.(currentImageIndex := PrevIndex(v.currentImageIndex, v.count))
      case OtherKey => v
  }

  /** The key cases spelled out: keys are ignored while closed, Escape keeps the index, and
      the arrows undo each other. */
  lemma KeyDownCases(v: LightboxView, key: Key)
    requires ShowsImage(v)
    ensures !v.lightboxOpen ==> KeyDown(v, key) == v
    ensures v.lightboxOpen && key == Escape ==>
      !KeyDown(v, key).lightboxOpen && KeyDown(v, key).currentImageIndex == v.currentImageIndex
    ensures v.lightboxOpen && key != Escape ==> KeyDown(v, key).lightboxOpen
    ensures v.lightboxOpen ==> KeyDown(KeyDown(v, ArrowRight), ArrowLeft) == v
    ensures v.lightboxOpen ==> KeyDown(KeyDown(v, ArrowLeft), ArrowRight) == v
  {
    if v.lightboxOpen {
      PrevUndoesNext(v.currentImageIndex, v.count);
    }
  }

  /** The index `openLightbox` receives when an image of the gallery is clicked:
      `images.indexOf(image)`. */
  function IndexOf(images: seq<ProjectImage>, image: ProjectImage): (k: int)
    ensures image in images ==>
      0 <= k < |images| && images[k] == image && forall j :: 0 <= j < k ==> images[j] != image
    ensures image !in images ==> k == -1
  {
    if images == [] then -1
    else if images[0] == image then 0
    else
      var k := IndexOf(images[1..], image);
      if k == -1 then -1 else k + 1
  }

  class Lightbox {
    var images: seq<ProjectImage>
    var lightboxOpen: bool
    var currentImageIndex: int

    ghost function View(): LightboxView
      reads this
    {
      LightboxView(|images|, lightboxOpen, currentImageIndex)
    }

    ghost predicate Valid()
      reads this
    {
      ShowsImage(View())
    }

    /** The page for a project's images, the lightbox closed on the first. */
    constructor(images: seq<ProjectImage>)
      ensures this.images == images && Valid()
      ensures View() == LightboxView(|images|, false, 0)
    {
      this.images := images;
      lightboxOpen := false;
      currentImageIndex := 0;
    }

    /** Clicking an image of the gallery. */
    method ClickImage(image: ProjectImage)
      requires image in images
      modifies this
      ensures Valid()
      ensures images == old(images) && lightboxOpen && images[currentImageIndex] == image
      ensures View() == LightboxOpened(old(View()), IndexOf(images, image))
    {
      OpenLightbox(IndexOf(images, image));
    }

    method OpenLightbox(index: int)
      requires 0 <= index < |images|
      modifies this
      ensures Valid() && images == old(images)
      ensures View() == LightboxOpened(old(View()), index)
    {
      currentImageIndex := index;
      lightboxOpen := true;
    }

    method CloseLightbox()
      requires Valid()
      modifies this
      ensures Valid() && images == old(images)
      ensures View() == LightboxClosed(old(View()))
    {
      lightboxOpen := false;
    }

    /** The right arrow button, shown while the lightbox is open. */
    method NextImage()
      requires Valid() && lightboxOpen
      modifies this
      ensures Valid() && images == old(images)
      ensures View() == old(View()).(currentImageIndex := NextIndex(old(currentImageIndex), |images|))
    {
      StepsStayInRange(currentImageIndex, |images|);
      currentImageIndex := JsRem(currentImageIndex + 1, |images|);
    }

    /** The left arrow button, shown while the lightbox is open. */
    method PrevImage()
      requires Valid() && lightboxOpen
      modifies this
      ensures Valid() && images == old(images)
      ensures View() == old(View()).(currentImageIndex := PrevIndex(old(currentImageIndex), |images|))
    {
      StepsStayInRange(currentImageIndex, |images|);
      currentImageIndex := JsRem(currentImageIndex - 1 + |images|, |images|);
    }

    method HandleKeyDown(key: Key)
      requires Valid()
      modifies this
      ensures Valid() && images == old(images)
      ensures View() == KeyDown(old(View()), key)
    {
      if !lightboxOpen {
        return;
      }
      if key == Escape {
        CloseLightbox();
      }
      if key == ArrowRight {
        NextImage();
      }
      if key == ArrowLeft {
        PrevImage();
      }
    }
  }

  // ---------------------------------------------------------------------------------------
  // groupedImages

  predicate InCategory(c: Option<ImageCategory>, image: ProjectImage) { image.category == c }

  /** `groupedImages`, in the order the gallery shows the groups. */
  datatype ImageGroups = ImageGroups(
    exterior: seq<ProjectImage>, interior: seq<ProjectImage>, commonAreas: seq<ProjectImage>,
    location: seq<ProjectImage>, uncategorized: seq<ProjectImage>)

  function Group(images: seq<ProjectImage>, c: Option<ImageCategory>): seq<ProjectImage>
  {
    Filter(images, image => InCategory(c, image))
  }

  function GroupedImages(images: seq<ProjectImage>): ImageGroups
  {
    ImageGroups(
      Group(images, Some(Exterior)), Group(images, Some(Interior)), Group(images, Some(CommonAreas)),
      Group(images, Some(Location)), Group(images, None))
  }

  /** The sizes of the five groups together. */
  function GroupsSize(g: ImageGroups): nat
  {
    |g.exterior| + |g.interior| + |g.commonAreas| + |g.location| + |g.uncategorized|
  }

  /** The first image goes to the group of its category, and to no other. */
  lemma GroupCons(images: seq<ProjectImage>, c: Option<ImageCategory>)
    requires images != []
    ensures |Group(images, c)| == (if images[0].category == c then 1 else 0) + |Group(images[1..], c)|
  {
    assert Group(images, c) == (if images[0].category == c then [images[0]] else []) + Group(images[1..], c);
  }

  /** The groups together are as large as the image list: with `GroupMembers`, every image
      is in exactly one group, the one for its category. */
  lemma {:induction false} GroupsPartition(images: seq<ProjectImage>)
    ensures GroupsSize(GroupedImages(images)) == |images|
  {
    if images != [] {
      GroupsPartition(images[1..]);
      GroupCons(images, Some(Exterior));
      GroupCons(images, Some(Interior));
      GroupCons(images, Some(CommonAreas));
      GroupCons(images, Some(Location));
      GroupCons(images, None);
      match images[0].category
      case None =>
      case Some(Exterior) =>
      case Some(Interior) =>
      case Some(CommonAreas) =>
      case Some(Location) =>
    }
  }

  /** Each group holds exactly the images of its category, in the order of the page. */
  lemma GroupMembers(images: seq<ProjectImage>, c: Option<ImageCategory>, image: ProjectImage)
    ensures image in Group(images, c) <==> image in images && image.category == c
    ensures IsSubsequence(Group(images, c), images)
  {
    FilterMembers(images, i => InCategory(c, i), image);
    FilterIsSubsequence(images, i => InCategory(c, i));
  }
}
