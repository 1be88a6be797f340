/** A listing's card: a small carousel over the listing's photos, with a
    stock photo when there is none to show, and the first 40 characters of
    the description. */
module PropertyCard {
  import opened Common

  /** The stock photo shown when a listing has no photo at the current position. */
  const DefaultImage := "https://res.cloudinary.com/dskrteajn/image/upload/v1706744948/ghcovgg7z1clwfwvucuk.jpg"

  /** How many characters of the description the card shows. */
  const PreviewLength := 40

  /** The index `nextImage` moves to: one further while that stays on a
      photo, otherwise back to the first. */
  function NextImageIndex(i: int, count: nat): (r: int)
    ensures 0 <= i < count ==> r == (i + 1) % count
    ensures count > 0 ==> r < count
    ensures i >= -1 ==> r >= 0
  {
    if i < count - 1 then i + 1 else 0
  }

  /** The index `prevImage` moves to: one back while not on the first photo,
      otherwise to the last, which is -1 when there are no photos. */
  function PrevImageIndex(i: int, count: nat): (r: int)
    ensures 0 <= i < count ==> r == (i - 1) % count
    ensures i <= count ==> r < count
    ensures (i > 0 || count > 0) ==> r >= 0
    ensures count == 0 && i <= 0 ==> r == -1
  {
    if i > 0 then i - 1 else count - 1
  }

  /** Stepping forward then back, or back then forward, returns to the same photo. */
  lemma NextPrevRoundTrip(i: int, count: nat)
    requires 0 <= i < count
    ensures PrevImageIndex(NextImageIndex(i, count), count) == i
    ensures NextImageIndex(PrevImageIndex(i, count), count) == i
  {
  }

  /** `steps` presses of the next arrow. */
  function Iterate(i: int, count: nat, steps: nat): int
    decreases steps
  {
    if steps == 0 then i else NextImageIndex(Iterate(i, count, steps - 1), count)
  }

  /** Up to `count` presses of the next arrow walk forward and wrap once. */
  lemma {:induction false} NextWalks(i: int, count: nat, steps: nat)
    requires 0 <= i < count && steps <= count
    ensures Iterate(i, count, steps) == if i + steps < count then i + steps else i + steps - count
    decreases steps
  {
    if steps > 0 {
      NextWalks(i, count, steps - 1);
    }
  }

  /** Pressing the next arrow once per photo comes back to the same photo. */
  lemma NextCycles(i: int, count: nat)
    requires 0 <= i < count
    ensures Iterate(i, count, count) == i
    ensures forall steps :: 0 < steps < count ==> Iterate(i, count, steps) != i
  {
    NextWalks(i, count, count);
    forall steps | 0 < steps < count ensures Iterate(i, count, steps) != i {
      NextWalks(i, count, steps);
    }
  }

  /** The photo a card shows: `images[i] || DefaultImage`. */
  function DisplayedImage(images: seq<string>, i: int): (url: string)
    ensures url != ""
    ensures url == DefaultImage <==> !(0 <= i < |images|) || images[i] == "" || images[i] == DefaultImage
    ensures 0 <= i < |images| && images[i] != "" ==> url == images[i]
  {
    if 0 <= i < |images| && images[i] != "" then images[i] else DefaultImage
  }

  /** `description?.slice(0, 40)`. */
  function DescriptionPreview(description: Option<string>): (preview: Option<string>)
    ensures preview.Some? <==> description.Some?
    ensures preview.Some? ==> |preview.value| <= PreviewLength
    ensures preview.Some? ==> preview.value <= description.value
    ensures preview.Some? && |description.value| <= PreviewLength ==> preview.value == description.value
    ensures preview.Some? && |description.value| > PreviewLength ==> |preview.value| == PreviewLength
  {
    match description
    case None => None
    case Some(d) => Some(if |d| <= PreviewLength then d else d[..PreviewLength])
  }

  /** The card's carousel over a listing with `imageCount` photos. */
  class Card {
    const imageCount: nat
    var currentImageIndex: int

    /** The index is on a photo, or, with no photos, at 0 or -1. */
    ghost predicate Valid()
      reads this
    {
      if imageCount > 0 then 0 <= currentImageIndex < imageCount else -1 <= currentImageIndex <= 0
    }

    constructor (count: nat)
      ensures imageCount == count && currentImageIndex == 0
      ensures Valid()
    {
      imageCount := count;
      currentImageIndex := 0;
    }

    /** `nextImage`. */
    method NextImage()
      requires Valid()
      modifies this
      ensures Valid()
      ensures currentImageIndex == NextImageIndex(old(currentImageIndex), imageCount)
    {
      if currentImageIndex < imageCount - 1 {
        currentImageIndex := currentImageIndex + 1;
      } else {
        currentImageIndex := 0;
      }
    }

    /** `prevImage`. */
    method PrevImage()
      requires Valid()
      modifies this
      ensures Valid()
      ensures currentImageIndex == PrevImageIndex(old(currentImageIndex), imageCount)
    {
      if currentImageIndex > 0 {
        currentImageIndex := currentImageIndex - 1;
      } else {
        currentImageIndex := imageCount - 1;
      }
    }
  }
}
