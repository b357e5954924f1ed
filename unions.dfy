/** The unions screen: the fetched unions with their image URLs made absolute, the
    add and update forms with their gates and image payload, the local patch after an
    update or delete, and the 5-per-page list. */
module Unions {
  import opened Text
  import opened ListView
  import opened Images

  datatype Union = Union(id: int, name: string, disCount: real, imageUrl: string, orderRank: int)

  /** The modal's form: `image` is the preview URL, `imageBase64` the data URI read from
      the chosen file, `imageName` its file name. */
  datatype UnionForm = UnionForm(name: string, discount: string, image: string, imageBase64: string, imageName: string)

  const ApiBase: string := "https://apilab-dev.runasp.net"
  const PageSize: nat := 5
  const EmptyForm: UnionForm := UnionForm([], [], [], [], [])

  // ------------------------------------------------------------ fetching

  /** The `imageUrl` rewrite of `fetchData`: a missing URL stays empty, an absolute
      (`http…`) URL is kept, and a server path gets the API origin in front. */
  function NormalizeImageUrl(url: string): (r: string)
    ensures r == [] <==> url == []
    ensures StartsWith(url, "http") ==> r == url
    ensures |url| <= |r| && r[|r| - |url|..] == url
  {
    if url == [] then []
    else if StartsWith(url, "http") then url
    else ApiBase + url
  }

  /** A rewritten URL is empty or absolute, it is the server path behind the API origin
      when it was not absolute, and rewriting it again changes nothing. */
  lemma NormalizeImageUrlFacts(url: string)
    ensures var r := NormalizeImageUrl(url);
            && (r == [] || StartsWith(r, "http"))
            && (url != [] && !StartsWith(url, "http") ==> r == ApiBase + url)
            && NormalizeImageUrl(r) == r
  {
    var r := NormalizeImageUrl(url);
    if url != [] && !StartsWith(url, "http") {
      assert r[..4] == ApiBase[..4] == "http";
    }
  }

  function ProcessUnions(us: seq<Union>): (r: seq<Union>)
    ensures |r| == |us|
    ensures forall k :: 0 <= k < |us| ==> r[k] == us[k].(imageUrl := NormalizeImageUrl(us[k].imageUrl))
  {
    if us == [] then [] else [us[0].(imageUrl := NormalizeImageUrl(us[0].imageUrl))] + ProcessUnions(us[1..])
  }

  /** The list a GetAll reply puts on screen: the array itself or its `resource` array,
      each union with its URL rewritten. */
  function FetchUnions(body: Body<Union>): (r: seq<Union>)
    ensures |r| == |Normalize(body)|
    ensures forall k :: 0 <= k < |r| ==> r[k].(imageUrl := Normalize(body)[k].imageUrl) == Normalize(body)[k]
  {
    ProcessUnions(Normalize(body))
  }

  lemma FetchUnionsExact(body: Body<Union>)
    ensures |FetchUnions(body)| == |Normalize(body)|
    ensures forall k :: 0 <= k < |FetchUnions(body)| ==>
              var u := FetchUnions(body)[k];
              && u.id == Normalize(body)[k].id && u.name == Normalize(body)[k].name
              && u.disCount == Normalize(body)[k].disCount && u.orderRank == Normalize(body)[k].orderRank
              && (u.imageUrl == [] || StartsWith(u.imageUrl, "http"))
  {
    forall k | 0 <= k < |FetchUnions(body)| ensures FetchUnions(body)[k].imageUrl == [] || StartsWith(FetchUnions(body)[k].imageUrl, "http") {
      NormalizeImageUrlFacts(Normalize(body)[k].imageUrl);
    }
  }

  // -------------------------------------------------------------- gates

  datatype UnionError = NotEditing | EmptyName | BadDiscount | NoImage | NameExists

  /** `validateForm`: a non-blank name and a discount that reads as a number in 0 .. 100. */
  function ValidateForm(form: UnionForm): (r: Option<UnionError>)
    ensures r.None? <==>
              Trim(form.name) != [] && ParseNumber(form.discount).Some?
              && 0.0 <= ParseNumber(form.discount).value <= 100.0
    ensures r == Some(EmptyName) <==> Trim(form.name) == []
    ensures r.Some? ==> r.value == EmptyName || r.value == BadDiscount
  {
    if Trim(form.name) == [] then Some(EmptyName)
    else match ParseNumber(form.discount)
      case None => Some(BadDiscount)
      case Some(d) => if d < 0.0 || d > 100.0 then Some(BadDiscount) else None
  }

  /** An integer percentage typed as digits passes, and so does a blank discount field,
      which `Number` reads as 0. */
  lemma DiscountsAccepted(form: UnionForm, percent: int)
    requires Trim(form.name) != []
    requires 0 <= percent <= 100
    ensures ValidateForm(form.(discount := IntToString(percent))).None?
    ensures ValidateForm(form.(discount := [])).None?
  {
    ParseIntToString(percent);
  }

  /** Some union's trimmed, lower-cased name is `key`. */
  function UnionNameUsed(unions: seq<Union>, key: string): (r: bool)
    ensures r <==> exists k :: 0 <= k < |unions| && Lower(Trim(unions[k].name)) == key
  {
    if unions == [] then false
    else Lower(Trim(unions[0].name)) == key || UnionNameUsed(unions[1..], key)
  }

  datatype AddPayload = AddPayload(name: string, imageBase64: string, disCount: real, orderRank: int)

  /** `addUnion` up to the request: the form gates, then a chosen image, then a name no
      union has (both trimmed and lower-cased). */
  function AddUnion(unions: seq<Union>, form: UnionForm): (r: Result<AddPayload, UnionError>)
    ensures ValidateForm(form).Some? ==> r == Err(ValidateForm(form).value)
    ensures r == Err(NoImage) <==> ValidateForm(form).None? && form.imageBase64 == []
    ensures r.Ok? <==>
              ValidateForm(form).None? && form.imageBase64 != []
              && forall u :: u in unions ==> Lower(Trim(u.name)) != Lower(Trim(form.name))
    ensures r.Ok? ==> r.value == AddPayload(Trim(form.name), StripDataUriPrefix(form.imageBase64),
                                            ParseNumber(form.discount).value, 0)
  {
    match ValidateForm(form)
    case Some(e) => Err(e)
    case None =>
      if form.imageBase64 == [] then Err(NoImage)
      else if UnionNameUsed(unions, Lower(Trim(form.name))) then
        Err(NameExists)
      else
        assert forall u :: u in unions ==> Lower(Trim(u.name)) != Lower(Trim(form.name)) by {
          forall u | u in unions ensures Lower(Trim(u.name)) != Lower(Trim(form.name)) {
            var k :| 0 <= k < |unions| && unions[k] == u;
          }
        }
        Ok(AddPayload(Trim(form.name), StripDataUriPrefix(form.imageBase64),
                      ParseNumber(form.discount).value, 0))
  }

  /** Adding a union whose name differs from an existing one only in case or surrounding
      white space is refused. */
  lemma AddRefusesNameVariant(unions: seq<Union>, form: UnionForm, u: Union)
    requires u in unions
    requires ValidateForm(form).None? && form.imageBase64 != []
    requires Lower(Trim(u.name)) == Lower(Trim(form.name))
    ensures AddUnion(unions, form) == Err(NameExists)
  {
  }

  /** The body of an update; `imageBase64` is only sent when a new image was chosen. */
  datatype UpdatePayload = UpdatePayload(id: int, name: string, disCount: real, orderRank: int, imageBase64: Option<string>)

  /** `updateUnion` up to the request: there must be a union being edited and the form
      must pass `validateForm`; no image and no name uniqueness are required. */
  function UpdateUnion(editUnion: Option<Union>, form: UnionForm): (r: Result<UpdatePayload, UnionError>)
    ensures editUnion.None? ==> r == Err(NotEditing)
    ensures editUnion.Some? && ValidateForm(form).Some? ==> r == Err(ValidateForm(form).value)
    ensures r.Ok? <==> editUnion.Some? && ValidateForm(form).None?
    ensures r.Ok? ==>
              && r.value.id == editUnion.value.id && r.value.orderRank == editUnion.value.orderRank
              && r.value.name == Trim(form.name) && r.value.disCount == ParseNumber(form.discount).value
              && (r.value.imageBase64.Some? <==> form.imageBase64 != [])
              && (r.value.imageBase64.Some? ==> r.value.imageBase64.value == StripDataUriPrefix(form.imageBase64))
  {
    if editUnion.None? then Err(NotEditing)
    else match ValidateForm(form)
      case Some(e) => Err(e)
      case None =>
        Ok(UpdatePayload(editUnion.value.id, Trim(form.name), ParseNumber(form.discount).value,
                         editUnion.value.orderRank,
                         if form.imageBase64 != [] then Some(StripDataUriPrefix(form.imageBase64)) else None))
  }

  // -------------------------------------------------------- local patches

  /** The image URL after an update: a new image points at the uploads folder, named by
      the reply's `imageUrl` or else by the old URL; otherwise the old URL stays. */
  function PatchedImageUrl(current: string, newImage: bool, replyImageUrl: string): string {
    if newImage then ApiBase + "/uploads/" + (if replyImageUrl != [] then replyImageUrl else current)
    else current
  }

  /** `setUnions(prev => prev.map(...))` after a successful update. */
  function PatchUnions(unions: seq<Union>, p: UpdatePayload, replyImageUrl: string): (r: seq<Union>)
    ensures |r| == |unions|
    ensures forall k :: 0 <= k < |unions| && unions[k].id != p.id ==> r[k] == unions[k]
    ensures forall k :: 0 <= k < |unions| && unions[k].id == p.id ==>
              && r[k].id == p.id && r[k].orderRank == unions[k].orderRank
              && r[k].name == p.name && r[k].disCount == p.disCount
              && r[k].imageUrl == PatchedImageUrl(unions[k].imageUrl, p.imageBase64.Some?, replyImageUrl)
  {
    if unions == [] then []
    else
      var u := unions[0];
      [if u.id == p.id
       then u.(name := p.name, disCount := p.disCount,
               imageUrl := PatchedImageUrl(u.imageUrl, p.imageBase64.Some?, replyImageUrl))
       else u] + PatchUnions(unions[1..], p, replyImageUrl)
  }

  /** The patch of an accepted update changes only the edited union: it gets the trimmed
      name and the parsed discount and keeps its id and rank, and every other union is
      left as it was. */
  lemma UpdateChangesOnlyEditedUnion(unions: seq<Union>, editUnion: Option<Union>, form: UnionForm,
                                     replyImageUrl: string)
    requires UpdateUnion(editUnion, form).Ok?
    ensures var r := PatchUnions(unions, UpdateUnion(editUnion, form).value, replyImageUrl);
            && |r| == |unions|
            && (forall k :: 0 <= k < |unions| && unions[k].id != editUnion.value.id ==> r[k] == unions[k])
            && (forall k :: 0 <= k < |unions| && unions[k].id == editUnion.value.id ==>
                  && r[k].id == unions[k].id && r[k].orderRank == unions[k].orderRank
                  && r[k].name == Trim(form.name) && r[k].disCount == ParseNumber(form.discount).value)
  {
  }

  /** Updating without a new image keeps every image URL. */
  lemma PatchWithoutImageKeepsUrls(unions: seq<Union>, p: UpdatePayload, replyImageUrl: string)
    requires p.imageBase64.None?
    ensures forall k :: 0 <= k < |unions| ==> PatchUnions(unions, p, replyImageUrl)[k].imageUrl == unions[k].imageUrl
  {
  }

  /** Patching twice with the same update changes nothing after the first time when no
      new image was sent. */
  lemma PatchIdempotentWithoutImage(unions: seq<Union>, p: UpdatePayload, replyImageUrl: string)
    requires p.imageBase64.None?
    ensures PatchUnions(PatchUnions(unions, p, replyImageUrl), p, replyImageUrl) == PatchUnions(unions, p, replyImageUrl)
  {
  }

  /** `prev.filter(u => u.id !== id)` after a successful delete. */
  function RemoveUnion(unions: seq<Union>, id: int): seq<Union> {
    Filter(unions, (u: Union) => u.id != id)
  }

  lemma RemoveUnionExact(unions: seq<Union>, id: int, x: Union)
    ensures IsSubsequence(RemoveUnion(unions, id), unions)
    ensures x in RemoveUnion(unions, id) <==> x in unions && x.id != id
    ensures x.id != id ==> multiset(RemoveUnion(unions, id))[x] == multiset(unions)[x]
  {
    FilterIsSubsequence(unions, (u: Union) => u.id != id);
    FilterMembers(unions, (u: Union) => u.id != id, x);
    FilterCounts(unions, (u: Union) => u.id != id, x);
  }

  /** The edit form `openModal` seeds from a union with a non-blank name and a discount in
      0 .. 100 passes `validateForm` unchanged, and updating from it keeps the discount. */
  lemma SeededFormValidates(u: Union, discountText: string)
    requires ParseNumber(discountText) == Some(u.disCount)
    requires Trim(u.name) != [] && 0.0 <= u.disCount <= 100.0
    ensures ValidateForm(UnionForm(u.name, discountText, u.imageUrl, [], [])).None?
    ensures UpdateUnion(Some(u), UnionForm(u.name, discountText, u.imageUrl, [], [])).Ok?
    ensures UpdateUnion(Some(u), UnionForm(u.name, discountText, u.imageUrl, [], [])).value.disCount == u.disCount
  {
  }

  // --------------------------------------------------------- screen state

  /** The screen's React state that the handlers change. */
  class UnionsScreen {
    var unions: seq<Union>
    var form: UnionForm
    var editUnion: Option<Union>
    var processing: bool
    var currentPage: nat
    var showModal: bool
    /** The payload of the update request in flight, which the `updateUnion` closure
        keeps across its `await`. */
    var sent: Option<UpdatePayload>

    ghost predicate Valid()
      reads this
    {
      currentPage >= 1
    }

    constructor ()
      ensures Valid()
      ensures unions == [] && form == EmptyForm && editUnion.None?
      ensures !processing && currentPage == 1 && !showModal && sent.None?
    {
      unions, form, editUnion := [], EmptyForm, None;
      processing, currentPage, showModal, sent := false, 1, false, None;
    }

    /** `paginatedUnions`. */
    function Shown(): (r: seq<Union>)
      reads this
      requires Valid()
      ensures |r| <= PageSize
    {
      PageSlice(unions, currentPage, PageSize)
    }

    function TotalPagesShown(): nat
      reads this
    {
      TotalPages(|unions|, PageSize)
    }

    /** `fetchData`: a reply replaces the list; a failed request (`None`) keeps it. */
    method Load(reply: Option<Body<Union>>)
      requires Valid()
      modifies this`unions
      ensures Valid()
      ensures unions == if reply.Some? then FetchUnions(reply.value) else old(unions)
    {
      if reply.Some? {
        unions := FetchUnions(reply.value);
      }
    }

    /** `openModal`: `discountText` is the edited union's discount as JavaScript prints it
        (`disCount.toString()`), so `Number` reads it back as that discount. */
    method OpenModal(union: Option<Union>, discountText: string)
      requires Valid()
      requires union.Some? ==> ParseNumber(discountText) == Some(union.value.disCount)
      modifies this`editUnion, this`form, this`showModal
      ensures Valid()
      ensures editUnion == union && showModal
      ensures form == if union.Some? then UnionForm(union.value.name, discountText, union.value.imageUrl, [], [])
                      else EmptyForm
      ensures union.Some? ==> ParseNumber(form.discount) == Some(union.value.disCount)
    {
      editUnion := union;
      form := if union.Some? then UnionForm(union.value.name, discountText, union.value.imageUrl, [], []) else EmptyForm;
      showModal := true;
    }

    /** `handleImageChange`, given the chosen file's type, its preview URL, its data URI and
        its name: anything but an image leaves the form as it was. */
    method ChooseImage(mime: string, previewUrl: string, dataUri: string, fileName: string) returns (accepted: bool)
      requires Valid()
      modifies this`form
      ensures Valid()
      ensures accepted == IsImageType(mime)
      ensures form == if accepted then old(form).(image := previewUrl, imageBase64 := dataUri, imageName := fileName)
                      else old(form)
    {
      accepted := IsImageType(mime);
      if accepted {
        form := form.(image := previewUrl, imageBase64 := dataUri, imageName := fileName);
      }
    }

    /** `removeImage`: clears the image fields and leaves name and discount as they were. */
    method RemoveImage()
      requires Valid()
      modifies this`form
      ensures Valid()
      ensures form == UnionForm(old(form).name, old(form).discount, [], [], [])
    {
      form := form.(image := [], imageBase64 := [], imageName := []);
    }

    /** The add button (disabled while a request runs): when the gates pass, the request
        starts and `processing` is raised. */
    method StartAdd() returns (outcome: Result<AddPayload, UnionError>)
      requires Valid() && !processing
      modifies this`processing
      ensures Valid()
      ensures outcome == AddUnion(unions, form) && processing == outcome.Ok?
    {
      processing := AddUnion(unions, form).Ok?;
      outcome := AddUnion(unions, form);
    }

    /** A successful add closes the modal, clears the form and fetches the list again. */
    method AddSucceeded(reload: Option<Body<Union>>)
      requires Valid()
      modifies this`processing, this`showModal, this`form, this`unions
      ensures Valid()
      ensures !processing && !showModal && form == EmptyForm
      ensures unions == if reload.Some? then FetchUnions(reload.value) else old(unions)
    {
      processing, showModal, form := false, false, EmptyForm;
      if reload.Some? {
        unions := FetchUnions(reload.value);
      }
    }

    /** A request that failed lowers `processing` (the `finally` block) and leaves the
        list and the modal alone; no payload is in flight any more. */
    method RequestFailed()
      requires Valid()
      modifies this`processing, this`sent
      ensures Valid()
      ensures !processing && sent.None?
    {
      processing, sent := false, None;
    }

    method StartUpdate() returns (outcome: Result<UpdatePayload, UnionError>)
      requires Valid() && !processing
      modifies this`processing, this`sent
      ensures Valid()
      ensures outcome == UpdateUnion(editUnion, form) && processing == outcome.Ok?
      ensures sent == if outcome.Ok? then Some(outcome.value) else old(sent)
    {
      outcome := UpdateUnion(editUnion, form);
      processing := outcome.Ok?;
      if outcome.Ok? {
        sent := Some(outcome.value);
      }
    }

    /** A successful update patches the edited union in place with the payload that
        `StartUpdate` sent, and closes the modal; `UpdateChangesOnlyEditedUnion` says what
        that patch does to the list. */
    method UpdateSucceeded(replyImageUrl: string)
      requires Valid() && sent.Some?
      modifies this`unions, this`processing, this`showModal, this`sent
      ensures Valid()
      ensures unions == PatchUnions(old(unions), old(sent).value, replyImageUrl)
      ensures !processing && !showModal && sent.None?
    {
      unions := PatchUnions(unions, sent.value, replyImageUrl);
      processing, showModal, sent := false, false, None;
    }

    /** `deleteUnion` once the request has ended: the union is dropped when it succeeded. */
    method DeleteFinished(id: int, success: bool)
      requires Valid()
      modifies this`unions, this`processing
      ensures Valid()
      ensures unions == if success then RemoveUnion(old(unions), id) else old(unions)
      ensures !processing
    {
      if success {
        unions := RemoveUnion(unions, id);
      }
      processing := false;
    }

    /** The pager is drawn only when there is more than one page. */
    method GoToPreviousPage()
      requires Valid() && TotalPagesShown() > 1
      modifies this`currentPage
      ensures Valid()
      ensures currentPage == PrevPage(old(currentPage), processing)
    {
      currentPage := PrevPage(currentPage, processing);
    }

    method GoToNextPage()
      requires Valid() && TotalPagesShown() > 1
      modifies this`currentPage
      ensures Valid()
      ensures currentPage == NextPage(old(currentPage), TotalPagesShown(), processing)
    {
      currentPage := NextPage(currentPage, TotalPagesShown(), processing);
    }
  }
}
