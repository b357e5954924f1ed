/** The ads screen: the image-file gate, the GetAll reply read in any of its shapes, the
    upload payload, the local removal after a delete, and the 5-per-page list. */
module Ads {
  import opened Text
  import opened ListView
  import opened Images

  datatype Ad = Ad(id: int, imageUrl: string)

  const PageSize: nat := 5
  /** 5 MB, the largest file `handleFileChange` takes. */
  const MaxFileSize: nat := 5 * 1024 * 1024

  datatype FileError = NotImage | TooLarge

  /** `handleFileChange`'s checks: the type first, then the size. */
  function CheckFile(mime: string, size: nat): (r: Option<FileError>)
    ensures r == Some(NotImage) <==> !IsImageType(mime)
    ensures r == Some(TooLarge) <==> IsImageType(mime) && size > MaxFileSize
    ensures r.None? <==> IsImageType(mime) && size <= 5242880
  {
    if !IsImageType(mime) then Some(NotImage)
    else if size > MaxFileSize then Some(TooLarge)
    else None
  }

  /** `fetchAds`: the reply's array itself, or its `resource` array whatever `success`
      says, or else nothing, with the error toast raised. A request that failed (`None`)
      also empties the list and raises the toast. */
  function ReadAds(reply: Option<Body<Ad>>): (r: (seq<Ad>, bool))
    ensures reply.None? ==> r == ([], true)
    ensures reply.Some? ==> r.0 == Normalize(reply.value)
    ensures reply.Some? ==>
              (r.1 <==> !reply.value.ArrayBody? && !(reply.value.ObjectBody? && reply.value.resource.ArrayResource?))
  {
    match reply
    case None => ([], true)
    case Some(ArrayBody(items)) => (items, false)
    case Some(ObjectBody(true, ArrayResource(items))) => (items, false)
    case Some(ObjectBody(_, ArrayResource(items))) => (items, false)
    case Some(_) => ([], true)
  }

  /** An error is only reported when no ad is shown. */
  lemma ReadAdsErrorMeansEmpty(reply: Option<Body<Ad>>)
    ensures ReadAds(reply).1 ==> ReadAds(reply).0 == []
  {
  }

  /** `prev.filter(ad => ad.id !== id)`. */
  function RemoveAd(ads: seq<Ad>, id: int): seq<Ad> {
    Filter(ads, (a: Ad) => a.id != id)
  }

  lemma RemoveAdExact(ads: seq<Ad>, id: int, x: Ad)
    ensures IsSubsequence(RemoveAd(ads, id), ads)
    ensures x in RemoveAd(ads, id) <==> x in ads && x.id != id
    ensures x.id != id ==> multiset(RemoveAd(ads, id))[x] == multiset(ads)[x]
  {
    FilterIsSubsequence(ads, (a: Ad) => a.id != id);
    FilterMembers(ads, (a: Ad) => a.id != id, x);
    FilterCounts(ads, (a: Ad) => a.id != id, x);
  }

  /** The screen's React state that the handlers change. */
  class AdsScreen {
    var ads: seq<Ad>
    var image: Option<string>
    var imageBase64: string
    var uploading: bool
    var showModal: bool
    var currentPage: nat
    var errorShown: bool

    ghost predicate Valid()
      reads this
    {
      currentPage >= 1
    }

    constructor ()
      ensures Valid()
      ensures ads == [] && image.None? && imageBase64 == []
      ensures !uploading && !showModal && currentPage == 1 && !errorShown
    {
      ads, image, imageBase64 := [], None, [];
      uploading, showModal, currentPage, errorShown := false, false, 1, false;
    }

    /** `currentAds`. */
    function Shown(): (r: seq<Ad>)
      reads this
      requires Valid()
      ensures |r| <= PageSize
    {
      PageSlice(ads, currentPage, PageSize)
    }

    function TotalPagesShown(): nat
      reads this
    {
      TotalPages(|ads|, PageSize)
    }

    method Load(reply: Option<Body<Ad>>)
      requires Valid()
      modifies this`ads, this`errorShown
      ensures Valid()
      ensures ads == ReadAds(reply).0 && errorShown == ReadAds(reply).1
    {
      var result := ReadAds(reply);
      ads, errorShown := result.0, result.1;
    }

    /** `handleFileChange`, given the file's type and size, its preview URL and its data
        URI: a refused file leaves the preview and the payload as they were. */
    method ChooseFile(mime: string, size: nat, previewUrl: string, dataUri: string) returns (error: Option<FileError>)
      requires Valid()
      modifies this`image, this`imageBase64
      ensures Valid()
      ensures error == CheckFile(mime, size)
      ensures error.None? ==> image == Some(previewUrl) && imageBase64 == dataUri
      ensures error.Some? ==> image == old(image) && imageBase64 == old(imageBase64)
    {
      error := CheckFile(mime, size);
      if error.None? {
        image := Some(previewUrl);
        imageBase64 := dataUri;
      }
    }

    /** `handleRemoveImage`. */
    method RemoveImage()
      requires Valid()
      modifies this`image, this`imageBase64
      ensures Valid()
      ensures image.None? && imageBase64 == []
    {
      image := None;
      imageBase64 := [];
    }

    /** `handleAddAd` up to the request: nothing is sent without an image; otherwise
        `uploading` is raised and the data-URI prefix is stripped from the payload. */
    method StartAdd() returns (payload: Option<string>)
      requires Valid()
      modifies this`uploading
      ensures Valid()
      ensures imageBase64 == [] ==> payload.None? && uploading == old(uploading)
      ensures imageBase64 != [] ==> payload == Some(StripDataUriPrefix(imageBase64)) && uploading
    {
      if imageBase64 == [] {
        return None;
      }
      uploading := true;
      payload := Some(StripDataUriPrefix(imageBase64));
    }

    /** The add request has ended; on success the form is cleared, the modal closed and
        the list read again. */
    method AddFinished(success: bool, reload: Option<Body<Ad>>)
      requires Valid()
      modifies this
      ensures Valid()
      ensures !uploading
      ensures success ==> image.None? && imageBase64 == [] && !showModal
                          && ads == ReadAds(reload).0 && errorShown == ReadAds(reload).1
      ensures !success ==> image == old(image) && imageBase64 == old(imageBase64) && showModal == old(showModal)
                           && ads == old(ads) && errorShown == old(errorShown)
      ensures currentPage == old(currentPage)
    {
      if success {
        RemoveImage();
        showModal := false;
        Load(reload);
      }
      uploading := false;
    }

    /** A delete the server confirmed removes that ad locally. */
    method DeleteSucceeded(id: int)
      requires Valid()
      modifies this`ads
      ensures Valid()
      ensures ads == RemoveAd(old(ads), id)
    {
      ads := RemoveAd(ads, id);
    }

    /** The pager is drawn only when there are ads on more than one page. */
    method GoToPreviousPage()
      requires Valid() && |ads| > 0 && TotalPagesShown() > 1
      modifies this`currentPage
      ensures Valid()
      ensures currentPage == PrevPage(old(currentPage), uploading)
    {
      currentPage := PrevPage(currentPage, uploading);
    }

    method GoToNextPage()
      requires Valid() && |ads| > 0 && TotalPagesShown() > 1
      modifies this`currentPage
      ensures Valid()
      ensures currentPage == NextPage(old(currentPage), TotalPagesShown(), uploading)
    {
      currentPage := NextPage(currentPage, TotalPagesShown(), uploading);
    }
  }
}
