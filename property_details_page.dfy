/** A listing's page: which of loading, error, not-found and details it
    shows, its photo gallery with arrows and thumbnails, and the icons and
    labels of the amenities. */
module PropertyDetailsPage {
  import opened Common
  import opened Records
  import PropertyCard
  import PropertySlice
  import CreatePropertyModal

  /** What the page renders. */
  datatype View = Loading | ErrorView(message: string) | NotFound | Details

  /** A listing as the page receives it: an object, given by its keys. */
  type Shown = map<string, string>

  /** The page's choice: the spinner first, then the error, then "Property
      Not Found" for a missing or empty object, and the listing otherwise. */
  function RenderView(loading: bool, error: Option<string>, property: Option<Shown>): (v: View)
    ensures loading ==> v == Loading
    ensures !loading && Truthy(error) ==> v == ErrorView(error.value)
    ensures v == NotFound <==> !loading && !Truthy(error) && (property.None? || property.value == map[])
    ensures v == Details <==> !loading && !Truthy(error) && property.Some? && |property.value| > 0
  {
    if loading then Loading
    else if Truthy(error) then ErrorView(error.value)
    else if property.None? || |property.value.Keys| == 0 then NotFound
    else Details
  }

  /** A stored record as the object the page reads: its id and its other fields. */
  function AsShown(r: Record): (s: Shown)
    ensures "id" in s && |s| > 0
  {
    r.fields["id" := r.id]
  }

  /** The object the page reads from the store's `currentProperty`. */
  function Selected(current: Option<Record>): Option<Shown> {
    if current.Some? then Some(AsShown(current.value)) else None
  }

  /** Once `getPropertyById` has resolved, the page shows the listing when the
      response carried one, and "Property Not Found" when it resolved with an
      undefined payload. */
  method ShowsFetchedListing(found: Option<Record>) returns (v: View)
    ensures found.Some? ==> v == Details
    ensures found.None? ==> v == NotFound
  {
    var store := new PropertySlice.PropertyStore();
    var _ := store.Dispatch(PropertySlice.Pending(PropertySlice.GetPropertyById));
    var during := RenderView(store.loading, store.error, Selected(store.currentProperty));
    assert during == Loading;
    var _ := store.Dispatch(PropertySlice.GetByIdFulfilled(found));
    v := RenderView(store.loading, store.error, Selected(store.currentProperty));
  }

  /** Whatever the store held before (an earlier error, another listing, a
      spinner), once `getPropertyById` resolves the page shows the listing
      when the response carried one and "Property Not Found" otherwise. */
  lemma FetchedListingShownFromAnyState(s: PropertySlice.PropertyState, found: Option<Record>)
    ensures PropertySlice.Reduce(s, PropertySlice.GetByIdFulfilled(found)).Some?
    ensures var r := PropertySlice.Reduce(s, PropertySlice.GetByIdFulfilled(found)).value;
            RenderView(r.loading, r.error, Selected(r.currentProperty)) == if found.Some? then Details else NotFound
  {
  }

  // --- The gallery ---

  /** The previous-arrow update: from the first photo to the last, otherwise one back. */
  function GalleryPrev(prev: int, count: nat): int {
    if prev == 0 then count - 1 else prev - 1
  }

  /** The next-arrow update: from the last photo to the first, otherwise one on. */
  function GalleryNext(prev: int, count: nat): int {
    if prev == count - 1 then 0 else prev + 1
  }

  /** On a photo, the page's arrows move exactly as the card's do. */
  lemma GalleryAgreesWithCard(i: int, count: nat)
    requires 0 <= i < count
    ensures GalleryPrev(i, count) == PropertyCard.PrevImageIndex(i, count)
    ensures GalleryNext(i, count) == PropertyCard.NextImageIndex(i, count)
    ensures 0 <= GalleryPrev(i, count) < count && 0 <= GalleryNext(i, count) < count
    ensures GalleryPrev(GalleryNext(i, count), count) == i
  {
    PropertyCard.NextPrevRoundTrip(i, count);
  }

  /** Off the photos, the card recovers at the next press and the page does not:
      its next arrow keeps counting up. */
  lemma GalleryNextOffRange(i: int, count: nat)
    requires i >= count
    ensures GalleryNext(i, count) == i + 1
    ensures PropertyCard.NextImageIndex(i, count) == 0
  {
  }

  /** Arrows and thumbnails appear only with more than one photo. */
  predicate ShowsNavigation(imageCount: nat) {
    imageCount > 1
  }

  /** The main area: the "No images available" panel, or an image element
      whose source is the photo at the index (none when the index is off the photos). */
  datatype MainArea = NoImagesPanel | Photo(src: Option<string>)

  /** The main area for a listing's photos and the active index. */
  function MainImage(images: seq<string>, index: int): (area: MainArea)
    ensures area == NoImagesPanel <==> images == []
    ensures area.Photo? && 0 <= index < |images| ==> area.src == Some(images[index])
    ensures area.Photo? && !(0 <= index < |images|) ==> area.src.None?
  {
    if |images| > 0 then Photo(if 0 <= index < |images| then Some(images[index]) else None)
    else NoImagesPanel
  }

  /** The page's gallery over a listing with `imageCount` photos. */
  class Gallery {
    const imageCount: nat
    var activeImageIndex: int

    /** The index is on a photo, or still at 0 when there is none. */
    ghost predicate Valid()
      reads this
    {
      0 <= activeImageIndex < imageCount || activeImageIndex == 0
    }

    constructor (count: nat)
      ensures imageCount == count && activeImageIndex == 0 && Valid()
    {
      imageCount := count;
      activeImageIndex := 0;
    }

    /** The previous arrow, which exists only when there is more than one photo. */
    method Prev()
      requires Valid() && ShowsNavigation(imageCount)
      modifies this
      ensures Valid() && 0 <= activeImageIndex < imageCount
      ensures activeImageIndex == PropertyCard.PrevImageIndex(old(activeImageIndex), imageCount)
    {
      GalleryAgreesWithCard(activeImageIndex, imageCount);
      activeImageIndex := GalleryPrev(activeImageIndex, imageCount);
    }

    /** The next arrow, which exists only when there is more than one photo. */
    method Next()
      requires Valid() && ShowsNavigation(imageCount)
      modifies this
      ensures Valid() && 0 <= activeImageIndex < imageCount
      ensures activeImageIndex == PropertyCard.NextImageIndex(old(activeImageIndex), imageCount)
    {
      GalleryAgreesWithCard(activeImageIndex, imageCount);
      activeImageIndex := GalleryNext(activeImageIndex, imageCount);
    }

    /** A thumbnail, one per photo, shown only when there is more than one photo. */
    method SelectThumbnail(index: nat)
      requires Valid() && ShowsNavigation(imageCount) && index < imageCount
      modifies this
      ensures Valid() && activeImageIndex == index
    {
      activeImageIndex := index;
    }
  }

  // --- Amenities ---

  datatype Icon = WifiIcon | SwimmingPoolIcon | ParkingIcon | SnowflakeIcon

  /** `getAmenityIcon`. */
  function AmenityIcon(amenity: string): (icon: Option<Icon>)
    ensures icon.Some? <==> amenity in {"wifi", "pool", "parking", "airConditioning"}
  {
    match amenity
    case "wifi" => Some(WifiIcon)
    case "pool" => Some(SwimmingPoolIcon)
    case "parking" => Some(ParkingIcon)
    case "airConditioning" => Some(SnowflakeIcon)
    case _ => None
  }

  /** Distinct known amenities get distinct icons. */
  lemma AmenityIconsDistinct(a: string, b: string)
    requires AmenityIcon(a).Some? && AmenityIcon(b).Some? && a != b
    ensures AmenityIcon(a) != AmenityIcon(b)
  {
  }

  /** The label beside the icon. */
  function AmenityLabel(amenity: string): (text: string)
    ensures amenity == "airConditioning" ==> text == "Air Conditioning"
    ensures amenity != "airConditioning" ==> text == amenity
  {
    if amenity == "airConditioning" then "Air Conditioning" else amenity
  }

  /** The amenity a new listing form starts with has an icon. */
  lemma DefaultAmenityHasIcon()
    ensures AmenityIcon(CreatePropertyModal.InitialValues.amenities[0]) == Some(WifiIcon)
  {
  }
}
