/** The "add menu item" form: the state its inputs edit, and the submit
    handler that checks the state, builds the multipart body and, once the
    server has accepted it, clears the form. */
module AddMenu {
  import opened Wrappers
  import opened Text
  import opened Lists
  import opened NumberInput
  import opened Json
  import opened MenuItem

  /** The form state `submitHandler` reads. */
  datatype AddDraft = AddDraft(
    name: string,
    description: string,
    categoryId: string,
    subcategoryId: string,
    festivalId: string,
    variants: seq<Variant>,
    images: seq<ImageFile>,
    isBestSeller: bool,
    inStock: bool,
    branches: seq<string>,
    preorderEnabled: bool,
    minDays: real,
    prepaidRequired: bool)

  /** `v.label?.trim() || "Default"` */
  function AddLabel(caption: Option<string>): string {
    match caption
    case None => "Default"
    case Some(s) => if Trim(s) == "" then "Default" else Trim(s)
  }

  /** `cleanedVariants`: every variant, with its label cleaned and its price
      as a number. */
  function AddCleanedVariants(vs: seq<Variant>): seq<CleanVariant> {
    Map(vs, (v: Variant) => CleanVariant(AddLabel(v.caption), ToNumber(v.price)))
  }

  /** No variant is dropped: each one is sent, in order, with a non-empty label
      free of surrounding white space (its own trimmed label, or "Default")
      and its price as a number. */
  lemma AddCleanedVariantsSpec(vs: seq<Variant>, k: int)
    requires 0 <= k < |vs|
    ensures |AddCleanedVariants(vs)| == |vs|
    ensures AddCleanedVariants(vs)[k].price == ToNumber(vs[k].price)
    ensures AddCleanedVariants(vs)[k].caption != ""
    ensures !IsSpace(AddCleanedVariants(vs)[k].caption[0])
    ensures vs[k].caption.Some? && Trim(vs[k].caption.value) != "" ==>
              AddCleanedVariants(vs)[k].caption == Trim(vs[k].caption.value)
    ensures vs[k].caption.None? || Trim(vs[k].caption.value) == "" ==>
              AddCleanedVariants(vs)[k].caption == "Default"
  {
    if vs[k].caption.Some? {
      TrimEdges(vs[k].caption.value);
    }
  }

  /** `!variants.some(v => !v.price)`: every price box holds some text. */
  predicate AllPriced(vs: seq<Variant>) {
    forall k :: 0 <= k < |vs| ==> Truthy(vs[k].price)
  }

  /** The parts appended before the festival check. */
  function HeadParts(d: AddDraft): seq<NamedPart> {
    [("name", Plain(d.name)),
     ("description", Plain(d.description)),
     ("category", Plain(d.categoryId)),
     ("subcategory", Plain(d.subcategoryId)),
     ("variants", Encoded(VariantsJson(AddCleanedVariants(d.variants)))),
     ("isBestSeller", Plain(BoolText(d.isBestSeller))),
     ("inStock", Plain(BoolText(d.inStock)))]
  }

  /** The parts appended after the branch check, before the images. */
  function TailParts(d: AddDraft): seq<NamedPart> {
    [("branches", Encoded(StringsJson(d.branches))),
     ("preorder", Encoded(PreorderJson(d.preorderEnabled, d.minDays, d.prepaidRequired)))]
  }

  /** What `submitHandler` does with a state: the first failing check stops
      it, otherwise it posts these parts in this order. */
  function AddSubmission(d: AddDraft): (r: Result<seq<NamedPart>, Abort>) {
    if d.categoryId == "" then Failure(NoCategory)
    else if |d.images| == 0 then Failure(NoImages)
    else if !AllPriced(d.variants) then Failure(MissingPrice)
    else if |d.branches| == 0 then Failure(NoBranch)
    else Success(AddBody(d))
  }

  /** The parts posted when every check passes. */
  function AddBody(d: AddDraft): seq<NamedPart> {
    HeadParts(d) + OptionalPart("festival", d.festivalId) + TailParts(d) + ImageParts(d.images)
  }

  /** A request is sent exactly when a category is chosen, an image is held,
      every price box is filled and a branch is selected; otherwise the alert
      is the one of the first check, in source order, that fails. */
  lemma AddSubmissionOutcome(d: AddDraft)
    ensures AddSubmission(d).Success? <==>
      d.categoryId != "" && |d.images| > 0 && AllPriced(d.variants) && |d.branches| > 0
    ensures d.categoryId == "" ==> AddSubmission(d) == Failure(NoCategory)
    ensures d.categoryId != "" && d.images == [] ==> AddSubmission(d) == Failure(NoImages)
    ensures d.categoryId != "" && d.images != [] && !AllPriced(d.variants) ==>
              AddSubmission(d) == Failure(MissingPrice)
    ensures d.categoryId != "" && d.images != [] && AllPriced(d.variants) && d.branches == [] ==>
              AddSubmission(d) == Failure(NoBranch)
  {
  }

  /** A price of 0 passes the price check: the box holds the text "0", which
      is truthy. */
  lemma ZeroPriceAccepted(d: AddDraft)
    requires d.categoryId != "" && d.images != [] && d.branches != []
    requires d.variants == [Variant(Some("Small"), Numeric(0.0))]
    ensures AddSubmission(d).Success?
  {
  }

  /** The body always carries a subcategory part, empty when none was picked,
      and the cleaned variants. */
  lemma AddBodySubcategoryAndVariants(d: AddDraft)
    ensures FormGet(AddBody(d), "subcategory") == Some(Plain(d.subcategoryId))
    ensures FormGet(AddBody(d), "variants") == Some(Encoded(VariantsJson(AddCleanedVariants(d.variants))))
  {
    var h := HeadParts(d);
    var rest := OptionalPart("festival", d.festivalId) + TailParts(d) + ImageParts(d.images);
    assert AddBody(d) == h + rest;
    assert h + rest == h[..3] + (h[3..] + rest);
    FormGetFinds(h[..3], h[3..] + rest, "subcategory");
    assert h + rest == h[..4] + (h[4..] + rest);
    FormGetFinds(h[..4], h[4..] + rest, "variants");
  }

  /** The body carries a festival part exactly when a festival is set. */
  lemma AddBodyFestival(d: AddDraft)
    ensures FormGet(AddBody(d), "festival") == if d.festivalId != "" then Some(Plain(d.festivalId)) else None
  {
    var h, o, rest := HeadParts(d), OptionalPart("festival", d.festivalId), TailParts(d) + ImageParts(d.images);
    assert AddBody(d) == h + (o + rest);
    FormGetSkips(h, o + rest, "festival");
    if d.festivalId == "" {
      assert o + rest == rest;
      FormGetLacking(rest, "festival");
    }
  }

  /** The body carries the selected branches, serialised. */
  lemma AddBodyBranches(d: AddDraft)
    ensures FormGet(AddBody(d), "branches") == Some(Encoded(StringsJson(d.branches)))
  {
    var front := HeadParts(d) + OptionalPart("festival", d.festivalId);
    assert AddBody(d) == front + (TailParts(d) + ImageParts(d.images));
    FormGetFinds(front, TailParts(d) + ImageParts(d.images), "branches");
  }

  /** The server receives exactly the held images, in order. */
  lemma AddBodyUploads(d: AddDraft)
    ensures Uploads(AddBody(d)) == d.images
  {
    var front := HeadParts(d) + OptionalPart("festival", d.festivalId) + TailParts(d);
    UploadsAppend(front, ImageParts(d.images));
    UploadsLacking(front);
    ImagePartsRoundTrip(d.images);
  }

  /** The state a successful submit leaves: the form as it starts, except that
      the festival choice is kept. */
  function AfterReset(d: AddDraft): AddDraft {
    InitialAddDraft.(festivalId := d.festivalId)
  }

  const InitialAddDraft := AddDraft("", "", "", "", "", [BlankVariant], [], false, true, [], false, 0.0, false)

  /** The add-menu component. Its state hooks are the fields of `form`; each
      handler replaces the record with the fields it sets changed. */
  class AddMenuForm {
    var form: AddDraft

    /** At least one variant row, and at most `MAX_IMAGES` images. */
    ghost predicate Valid()
      reads this
    {
      |form.variants| >= 1 && |form.images| <= MAX_IMAGES
    }

    constructor ()
      ensures Valid() && form == InitialAddDraft
    {
      form := InitialAddDraft;
    }

    /** `handleImageSelect`: the held images followed by the picked files,
        cut at `MAX_IMAGES`. */
    method HandleImageSelect(files: seq<ImageFile>)
      requires Valid()
      modifies this
      ensures Valid()
      ensures form == old(form).(images := TakeImages(old(form.images), files, MAX_IMAGES))
    {
      TakeImagesCap(form.images, files, MAX_IMAGES);
      form := form.(images := SliceTo(form.images + files, MAX_IMAGES));
    }

    /** `removeImage(i)` */
    method RemoveImage(i: int)
      requires Valid()
      modifies this
      ensures Valid()
      ensures form == old(form).(images := DropIndex(old(form.images), i))
      ensures 0 <= i < |old(form.images)| ==> form.images == old(form.images)[..i] + old(form.images)[i + 1..]
      ensures !(0 <= i < |old(form.images)|) ==> form.images == old(form.images)
    {
      DropIndexSpec(form.images, i);
      form := form.(images := DropIndex(form.images, i));
    }

    /** `updateVariant(i, field, value)` */
    method UpdateVariantField(i: nat, e: VariantEdit)
      requires Valid() && i < |form.variants|
      modifies this
      ensures Valid()
      ensures form == old(form).(variants := UpdateVariant(old(form.variants), i, e))
    {
      form := form.(variants := UpdateVariant(form.variants, i, e));
    }

    /** `addVariant` */
    method AddVariantRow()
      requires Valid()
      modifies this
      ensures Valid()
      ensures form == old(form).(variants := AddVariant(old(form.variants)))
    {
      form := form.(variants := AddVariant(form.variants));
    }

    /** `removeVariant(i)` */
    method RemoveVariantRow(i: int)
      requires Valid()
      modifies this
      ensures Valid()
      ensures form == old(form).(variants := RemoveVariant(old(form.variants), i))
    {
      VariantsNeverEmpty(form.variants, i);
      form := form.(variants := RemoveVariant(form.variants, i));
    }

    /** The category selector: a new category clears the subcategory. */
    method ChooseCategory(c: string)
      modifies this
      ensures form == old(form).(categoryId := c, subcategoryId := "")
    {
      form := form.(categoryId := c);
      form := form.(subcategoryId := "");
    }

    /** A branch checkbox. */
    method ToggleBranchBox(id: string, checked: bool)
      modifies this
      ensures form == old(form).(branches := ToggleBranch(old(form.branches), id, checked))
    {
      if checked {
        form := form.(branches := form.branches + [id]);
      } else {
        form := form.(branches := RemoveAll(form.branches, id));
      }
    }

    /** The checks and the body of `submitHandler`, up to the request. */
    method BuildSubmission() returns (outcome: Result<seq<NamedPart>, Abort>)
      ensures outcome == AddSubmission(form)
    {
      var d := form;
      if d.categoryId == "" {
        return Failure(NoCategory);
      }
      if |d.images| == 0 {
        return Failure(NoImages);
      }
      if !AllPriced(d.variants) {
        return Failure(MissingPrice);
      }
      var cleaned := AddCleanedVariants(d.variants);
      var data: seq<NamedPart> := [
        ("name", Plain(d.name)),
        ("description", Plain(d.description)),
        ("category", Plain(d.categoryId)),
        ("subcategory", Plain(d.subcategoryId)),
        ("variants", Encoded(VariantsJson(cleaned))),
        ("isBestSeller", Plain(BoolText(d.isBestSeller))),
        ("inStock", Plain(BoolText(d.inStock)))];
      assert data == HeadParts(d);
      if d.festivalId != "" {
        data := data + [("festival", Plain(d.festivalId))];
      }
      ghost var withFestival := data;
      assert withFestival == HeadParts(d) + OptionalPart("festival", d.festivalId);
      if |d.branches| == 0 {
        return Failure(NoBranch);
      }
      data := data + [("branches", Encoded(StringsJson(d.branches)))];
      data := data + [("preorder", Encoded(PreorderJson(d.preorderEnabled, d.minDays, d.prepaidRequired)))];
      ghost var fixed := data;
      assert fixed == withFestival + TailParts(d);
      var k := 0;
      while k < |d.images|
        invariant 0 <= k <= |d.images|
        invariant |data| == |fixed| + k && data[..|fixed|] == fixed
        invariant forall j :: 0 <= j < k ==> data[|fixed| + j] == ("images", Upload(d.images[j]))
      {
        data := data + [("images", Upload(d.images[k]))];
        k := k + 1;
      }
      assert data == fixed + ImageParts(d.images);
      outcome := Success(data);
    }

    /** `submitHandler`: when the checks pass the body is sent; if the server
        accepts it the form is cleared except for the festival choice,
        otherwise nothing changes. `accepted` is the server's answer. */
    method Submit(accepted: bool) returns (outcome: Result<seq<NamedPart>, Abort>)
      requires Valid()
      modifies this
      ensures Valid()
      ensures outcome == AddSubmission(old(form))
      ensures form == if outcome.Success? && accepted then AfterReset(old(form)) else old(form)
    {
      outcome := BuildSubmission();
      if outcome.Success? && accepted {
        form := form.(
          name := "",
          description := "",
          categoryId := "",
          branches := [],
          preorderEnabled := false,
          minDays := 0.0,
          prepaidRequired := false,
          subcategoryId := "",
          variants := [BlankVariant],
          images := [],
          isBestSeller := false,
          inStock := true);
      }
    }
  }
}
