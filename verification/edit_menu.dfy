/** The "edit menu item" form: loading a stored item into the form, the
    images already stored beside the newly picked ones, and the submit
    handler that cleans the variants and builds the multipart update body. */
module EditMenu {
  import opened Wrappers
  import opened Text
  import opened Lists
  import opened NumberInput
  import opened Json
  import opened MenuItem

  /** The form state `submitHandler` reads. `existingImages` are the URLs of
      images already stored, `images` the newly picked files, and
      `removedImages` the URLs the user took off the item. */
  datatype EditDraft = EditDraft(
    name: string,
    description: string,
    categoryId: string,
    subcategoryId: string,
    festivalId: string,
    variants: seq<Variant>,
    existingImages: seq<string>,
    images: seq<ImageFile>,
    removedImages: seq<string>,
    isBestSeller: bool,
    inStock: bool,
    branches: seq<string>,
    preorderEnabled: bool,
    minDays: real,
    prepaidRequired: bool)

  const InitialEditDraft := EditDraft("", "", "", "", "", [BlankVariant], [], [], [], false, true, [], false, 0.0, false)

  // ----- loading the stored item -----

  /** The stored preorder settings. */
  datatype StoredPreorder = StoredPreorder(enabled: bool, minDays: Option<real>, prepaidRequired: Option<bool>)

  /** The item as the server returns it; any property may be missing.
      `category`, `subcategory` and `festival` are the `_id`s of the
      populated references. */
  datatype StoredItem = StoredItem(
    name: Option<string>,
    description: Option<string>,
    category: Option<string>,
    subcategory: Option<string>,
    festival: Option<string>,
    variants: Option<seq<Variant>>,
    isBestSeller: Option<bool>,
    inStock: Option<bool>,
    images: Option<seq<string>>,
    branches: Option<seq<string>>,
    preorder: Option<StoredPreorder>)

  /** `item.variants?.length ? item.variants : [{ label: "", price: "" }]` */
  function LoadedVariants(vs: Option<seq<Variant>>): seq<Variant> {
    if vs.Some? && |vs.value| > 0 then vs.value else [BlankVariant]
  }

  /** The state after the item arrives: each property copied with its
      fallback, and the preorder settings overwritten only when the stored
      item has preorder enabled. New files and removed URLs are left as they
      were. */
  function LoadItem(d: EditDraft, item: StoredItem): (r: EditDraft) {
    var loaded := d.(
      name := item.name.GetOr(""),
      description := item.description.GetOr(""),
      categoryId := item.category.GetOr(""),
      subcategoryId := item.subcategory.GetOr(""),
      festivalId := item.festival.GetOr(""),
      variants := LoadedVariants(item.variants),
      isBestSeller := item.isBestSeller == Some(true),
      inStock := item.inStock != Some(false),
      existingImages := item.images.GetOr([]),
      branches := item.branches.GetOr([]));
    if item.preorder.Some? && item.preorder.value.enabled then
      loaded.(preorderEnabled := true,
              minDays := item.preorder.value.minDays.GetOr(0.0),
              prepaidRequired := item.preorder.value.prepaidRequired == Some(true))
    else loaded
  }

  /** A loaded form always has a variant row (a blank one when the item has
      none), is in stock unless the item says it is not, keeps the stored
      variants when there are some, and keeps its preorder settings unless
      the item enables preorder. */
  lemma LoadItemSpec(d: EditDraft, item: StoredItem)
    ensures |LoadItem(d, item).variants| >= 1
    ensures (item.variants.None? || item.variants == Some([])) ==> LoadItem(d, item).variants == [BlankVariant]
    ensures item.variants.Some? && item.variants.value != [] ==> LoadItem(d, item).variants == item.variants.value
    ensures LoadItem(d, item).inStock <==> item.inStock != Some(false)
    ensures LoadItem(d, item).isBestSeller <==> item.isBestSeller == Some(true)
    ensures !(item.preorder.Some? && item.preorder.value.enabled) ==>
              LoadItem(d, item).preorderEnabled == d.preorderEnabled
              && LoadItem(d, item).minDays == d.minDays
              && LoadItem(d, item).prepaidRequired == d.prepaidRequired
    ensures item.preorder.Some? && item.preorder.value.enabled ==> LoadItem(d, item).preorderEnabled
    ensures LoadItem(d, item).images == d.images && LoadItem(d, item).removedImages == d.removedImages
  {
  }

  // ----- images -----

  /** With at most `MAX_IMAGES` stored images, picking files never lets the
      stored and new images together exceed `MAX_IMAGES`; the new images are
      the held ones followed by the picked files, in order, as many as fit
      beside the stored ones, none is lost when all fit, and a full set of
      images stays as it is. */
  lemma EditImageSelectCap(existing: seq<string>, prev: seq<ImageFile>, files: seq<ImageFile>)
    requires |existing| <= MAX_IMAGES
    ensures |existing| + |TakeImages(prev, files, MAX_IMAGES - |existing|)| <= MAX_IMAGES
    ensures TakeImages(prev, files, MAX_IMAGES - |existing|) ==
              (prev + files)[..|TakeImages(prev, files, MAX_IMAGES - |existing|)|]
    ensures |existing| + |prev| + |files| <= MAX_IMAGES ==>
              TakeImages(prev, files, MAX_IMAGES - |existing|) == prev + files
    ensures |TakeImages(prev, files, MAX_IMAGES - |existing|)| ==
              if |existing| + |prev| + |files| <= MAX_IMAGES then |prev| + |files| else MAX_IMAGES - |existing|
    ensures |existing| + |prev| == MAX_IMAGES ==> TakeImages(prev, files, MAX_IMAGES - |existing|) == prev
  {
    TakeImagesCap(prev, files, MAX_IMAGES - |existing|);
  }

  /** Taking stored image `i` off the item moves its URL from the stored list
      to the end of the removed list: no URL is lost or duplicated. */
  lemma RemoveExistingKeepsUrls(existing: seq<string>, removed: seq<string>, i: nat)
    requires i < |existing|
    ensures multiset(DropIndex(existing, i)) + multiset(removed + [existing[i]])
            == multiset(existing) + multiset(removed)
    ensures |DropIndex(existing, i)| == |existing| - 1
  {
    DropIndexSpec(existing, i);
    DropIndexMultiset(existing, i);
    assert multiset(removed + [existing[i]]) == multiset(removed) + multiset{existing[i]};
  }

  // ----- cleaned variants -----

  /** `v.price !== "" && Number(v.price) > 0` */
  predicate Priced(v: Variant) {
    v.price != Blank && ToNumber(v.price) > 0.0
  }

  /** `v.label?.trim() || ""` */
  function EditLabel(caption: Option<string>): string {
    match caption
    case None => ""
    case Some(s) => Trim(s)
  }

  function EditClean(v: Variant): CleanVariant {
    CleanVariant(EditLabel(v.caption), ToNumber(v.price))
  }

  /** `cleanedVariants`: the priced variants, in order, with cleaned labels
      and numeric prices. */
  function EditCleanedVariants(vs: seq<Variant>): seq<CleanVariant> {
    Map(Filter(vs, Priced), EditClean)
  }

  /** Every cleaned variant has a positive price and comes from a priced
      variant of the form, every priced variant is sent in cleaned form, and
      the cleaned list is empty exactly when no variant is priced. */
  lemma EditCleanedVariantsSpec(vs: seq<Variant>, c: CleanVariant, v: Variant)
    ensures c in EditCleanedVariants(vs) ==> c.price > 0.0 && exists w :: w in vs && Priced(w) && c == EditClean(w)
    ensures v in vs && Priced(v) ==> EditClean(v) in EditCleanedVariants(vs)
    ensures EditCleanedVariants(vs) == [] <==> forall k :: 0 <= k < |vs| ==> !Priced(vs[k])
  {
    var kept := Filter(vs, Priced);
    if c in EditCleanedVariants(vs) {
      var j :| 0 <= j < |kept| && EditCleanedVariants(vs)[j] == c;
      FilterMembership(vs, Priced, kept[j]);
    }
    FilterMembership(vs, Priced, v);
    if v in vs && Priced(v) {
      var j :| 0 <= j < |kept| && kept[j] == v;
      assert EditCleanedVariants(vs)[j] == EditClean(v);
    }
    if kept == [] {
      forall k | 0 <= k < |vs| ensures !Priced(vs[k]) {
        FilterMembership(vs, Priced, vs[k]);
      }
    } else {
      FilterMembership(vs, Priced, kept[0]);
      assert EditCleanedVariants(vs)[0] == EditClean(kept[0]);
    }
  }

  /** Cleaning keeps the order of the rows: the cleaned rows of two parts of
      the list follow one another. */
  lemma EditCleanedVariantsOrder(a: seq<Variant>, b: seq<Variant>)
    ensures EditCleanedVariants(a + b) == EditCleanedVariants(a) + EditCleanedVariants(b)
  {
    FilterAppend(a, b, Priced);
    var fa, fb := Filter(a, Priced), Filter(b, Priced);
    var lhs, rhs := Map(fa + fb, EditClean), Map(fa, EditClean) + Map(fb, EditClean);
    assert |lhs| == |rhs|;
    forall k | 0 <= k < |lhs| ensures lhs[k] == rhs[k] {
      if k < |fa| {
        assert (fa + fb)[k] == fa[k];
      } else {
        assert (fa + fb)[k] == fb[k - |fa|];
      }
    }
  }

  // ----- the update body -----

  /** The parts appended before the branch check. */
  function EditHeadParts(d: EditDraft): seq<NamedPart> {
    [("name", Plain(Trim(d.name))),
     ("description", Plain(d.description)),
     ("category", Plain(d.categoryId)),
     ("variants", Encoded(VariantsJson(EditCleanedVariants(d.variants)))),
     ("isBestSeller", Plain(BoolText(d.isBestSeller))),
     ("inStock", Plain(BoolText(d.inStock))),
     ("removedImages", Encoded(StringsJson(d.removedImages)))]
  }

  /** The parts appended after the branch check, before the optional ones. */
  function EditTailParts(d: EditDraft): seq<NamedPart> {
    [("branches", Encoded(StringsJson(d.branches))),
     ("preorder", Encoded(PreorderJson(d.preorderEnabled, d.minDays, d.prepaidRequired)))]
  }

  /** The parts of an update that passes the checks. */
  function EditBody(d: EditDraft): seq<NamedPart> {
    EditHeadParts(d) + EditTailParts(d)
      + OptionalPart("subcategory", d.subcategoryId) + OptionalPart("festival", d.festivalId)
      + ImageParts(d.images)
  }

  /** What `submitHandler` does with a state: stop when no variant is priced
      or no branch is selected, otherwise post the update body. */
  function EditSubmission(d: EditDraft): Result<seq<NamedPart>, Abort> {
    if |EditCleanedVariants(d.variants)| == 0 then Failure(NoPricedVariant)
    else if |d.branches| == 0 then Failure(NoBranch)
    else Success(EditBody(d))
  }

  /** An update is sent exactly when some variant is priced and a branch is
      selected; the priced-variant check comes first. */
  lemma EditSubmissionOutcome(d: EditDraft)
    ensures EditSubmission(d).Success? <==>
              (exists k :: 0 <= k < |d.variants| && Priced(d.variants[k])) && |d.branches| > 0
    ensures (forall k :: 0 <= k < |d.variants| ==> !Priced(d.variants[k])) ==>
              EditSubmission(d) == Failure(NoPricedVariant)
    ensures (exists k :: 0 <= k < |d.variants| && Priced(d.variants[k])) && d.branches == [] ==>
              EditSubmission(d) == Failure(NoBranch)
  {
    EditCleanedVariantsSpec(d.variants, CleanVariant("", 0.0), BlankVariant);
  }

  /** The subcategory part is present exactly when a subcategory is set. */
  lemma EditBodySubcategory(d: EditDraft)
    ensures FormGet(EditBody(d), "subcategory") == if d.subcategoryId != "" then Some(Plain(d.subcategoryId)) else None
  {
    var front := EditHeadParts(d) + EditTailParts(d);
    var s, rest := OptionalPart("subcategory", d.subcategoryId),
                   OptionalPart("festival", d.festivalId) + ImageParts(d.images);
    assert EditBody(d) == front + (s + rest);
    FormGetSkips(front, s + rest, "subcategory");
    if d.subcategoryId == "" {
      assert s + rest == rest;
      FormGetLacking(rest, "subcategory");
    }
  }

  /** The festival part is present exactly when a festival is set. */
  lemma EditBodyFestival(d: EditDraft)
    ensures FormGet(EditBody(d), "festival") == if d.festivalId != "" then Some(Plain(d.festivalId)) else None
  {
    var front := EditHeadParts(d) + EditTailParts(d) + OptionalPart("subcategory", d.subcategoryId);
    var f, i := OptionalPart("festival", d.festivalId), ImageParts(d.images);
    assert EditBody(d) == front + (f + i);
    FormGetSkips(front, f + i, "festival");
    if d.festivalId == "" {
      assert f + i == i;
      FormGetLacking(i, "festival");
    }
  }

  /** The update names the trimmed item name and the removed image URLs. */
  lemma EditBodyNameAndRemoved(d: EditDraft)
    ensures FormGet(EditBody(d), "name") == Some(Plain(Trim(d.name)))
    ensures FormGet(EditBody(d), "removedImages") == Some(Encoded(StringsJson(d.removedImages)))
  {
    var h := EditHeadParts(d);
    var rest := EditTailParts(d) + OptionalPart("subcategory", d.subcategoryId)
                + OptionalPart("festival", d.festivalId) + ImageParts(d.images);
    assert EditBody(d) == h + rest;
    assert h + rest == h[..6] + (h[6..] + rest);
    FormGetFinds(h[..6], h[6..] + rest, "removedImages");
  }

  /** The update uploads exactly the new files, in order; stored images are
      not sent again. */
  lemma EditBodyUploads(d: EditDraft)
    ensures Uploads(EditBody(d)) == d.images
  {
    var head, tail := EditHeadParts(d), EditTailParts(d);
    var s, f := OptionalPart("subcategory", d.subcategoryId), OptionalPart("festival", d.festivalId);
    assert Lacks(head, "images") && Lacks(tail, "images") && Lacks(s, "images") && Lacks(f, "images");
    LacksAppend(head, tail, "images");
    LacksAppend(head + tail, s, "images");
    LacksAppend(head + tail + s, f, "images");
    var front := head + tail + s + f;
    assert EditBody(d) == front + ImageParts(d.images);
    UploadsAppend(front, ImageParts(d.images));
    UploadsLacking(front);
    ImagePartsRoundTrip(d.images);
  }

  /** The edit-menu component. Its state hooks are the fields of `form`. */
  class EditMenuForm {
    var form: EditDraft

    /** At least one variant row. */
    ghost predicate Valid()
      reads this
    {
      |form.variants| >= 1
    }

    constructor ()
      ensures Valid() && form == InitialEditDraft
    {
      form := InitialEditDraft;
    }

    /** The item fetch's handler. */
    method Load(item: StoredItem)
      modifies this
      ensures Valid()
      ensures form == LoadItem(old(form), item)
    {
      form := form.(
        name := item.name.GetOr(""),
        description := item.description.GetOr(""),
        categoryId := item.category.GetOr(""),
        subcategoryId := item.subcategory.GetOr(""),
        festivalId := item.festival.GetOr(""),
        variants := LoadedVariants(item.variants),
        isBestSeller := item.isBestSeller == Some(true),
        inStock := item.inStock != Some(false),
        existingImages := item.images.GetOr([]),
        branches := item.branches.GetOr([]));
      if item.preorder.Some? && item.preorder.value.enabled {
        form := form.(preorderEnabled := true);
        form := form.(minDays := item.preorder.value.minDays.GetOr(0.0));
        form := form.(prepaidRequired := item.preorder.value.prepaidRequired == Some(true));
      }
    }

    /** `handleImageSelect`: the held new files followed by the picked ones,
        cut at `MAX_IMAGES` minus the number of stored images. */
    method HandleImageSelect(files: seq<ImageFile>)
      modifies this
      ensures form == old(form).(images := TakeImages(old(form.images), files, MAX_IMAGES - |old(form.existingImages)|))
      ensures |old(form.existingImages)| <= MAX_IMAGES ==> |form.existingImages| + |form.images| <= MAX_IMAGES
    {
      if |form.existingImages| <= MAX_IMAGES {
        EditImageSelectCap(form.existingImages, form.images, files);
      }
      form := form.(images := SliceTo(form.images + files, MAX_IMAGES - |form.existingImages|));
    }

    /** `removeNewImage(i)` */
    method RemoveNewImage(i: int)
      modifies this
      ensures form == old(form).(images := DropIndex(old(form.images), i))
      ensures 0 <= i < |old(form.images)| ==> form.images == old(form.images)[..i] + old(form.images)[i + 1..]
    {
      DropIndexSpec(form.images, i);
      form := form.(images := DropIndex(form.images, i));
    }

    /** The remove button of stored image `i`: the image leaves the stored
        list and its URL is appended to the removed list. */
    method RemoveExistingImage(i: nat)
      requires i < |form.existingImages|
      modifies this
      ensures form == old(form).(existingImages := DropIndex(old(form.existingImages), i),
                                 removedImages := old(form.removedImages) + [old(form.existingImages)[i]])
      ensures multiset(form.existingImages) + multiset(form.removedImages)
              == multiset(old(form.existingImages)) + multiset(old(form.removedImages))
    {
      var url := form.existingImages[i];
      RemoveExistingKeepsUrls(form.existingImages, form.removedImages, i);
      form := form.(existingImages := DropIndex(form.existingImages, i));
      form := form.(removedImages := form.removedImages + [url]);
    }

    /** `updateVariant(i, field, value)` */
    method UpdateVariantField(i: nat, e: VariantEdit)
      requires Valid() && i < |form.variants|
      modifies this
      ensures Valid()
      ensures form == old(form).(variants := UpdateVariant(old(form.variants), i, e))
    {
      form := form.(variants := UpdateVariant(form.variants, i, e));
    }

    /** `addVariant` */
    method AddVariantRow()
      requires Valid()
      modifies this
      ensures Valid()
      ensures form == old(form).(variants := AddVariant(old(form.variants)))
    {
      form := form.(variants := AddVariant(form.variants));
    }

    /** `removeVariant(i)` */
    method RemoveVariantRow(i: int)
      requires Valid()
      modifies this
      ensures Valid()
      ensures form == old(form).(variants := RemoveVariant(old(form.variants), i))
    {
      VariantsNeverEmpty(form.variants, i);
      form := form.(variants := RemoveVariant(form.variants, i));
    }

    /** The category selector: a new category clears the subcategory. */
    method ChooseCategory(c: string)
      modifies this
      ensures form == old(form).(categoryId := c, subcategoryId := "")
    {
      form := form.(categoryId := c);
      form := form.(subcategoryId := "");
    }

    /** A branch checkbox. */
    method ToggleBranchBox(id: string, checked: bool)
      modifies this
      ensures form == old(form).(branches := ToggleBranch(old(form.branches), id, checked))
    {
      if checked {
        form := form.(branches := form.branches + [id]);
      } else {
        form := form.(branches := RemoveAll(form.branches, id));
      }
    }

    /** The checks and the body of `submitHandler`, up to the request. A sent
        update navigates away, so the form state is not changed here. */
    method Submit() returns (outcome: Result<seq<NamedPart>, Abort>)
      ensures outcome == EditSubmission(form)
    {
      var d := form;
      var cleaned := EditCleanedVariants(d.variants);
      if |cleaned| == 0 {
        return Failure(NoPricedVariant);
      }
      var data: seq<NamedPart> := [
        ("name", Plain(Trim(d.name))),
        ("description", Plain(d.description)),
        ("category", Plain(d.categoryId)),
        ("variants", Encoded(VariantsJson(cleaned))),
        ("isBestSeller", Plain(BoolText(d.isBestSeller))),
        ("inStock", Plain(BoolText(d.inStock))),
        ("removedImages", Encoded(StringsJson(d.removedImages)))];
      assert data == EditHeadParts(d);
      if |d.branches| == 0 {
        return Failure(NoBranch);
      }
      data := data + [("branches", Encoded(StringsJson(d.branches)))];
      data := data + [("preorder", Encoded(PreorderJson(d.preorderEnabled, d.minDays, d.prepaidRequired)))];
      assert data == EditHeadParts(d) + EditTailParts(d);
      if d.subcategoryId != "" {
        data := data + [("subcategory", Plain(d.subcategoryId))];
      }
      ghost var withSubcategory := data;
      assert withSubcategory == EditHeadParts(d) + EditTailParts(d) + OptionalPart("subcategory", d.subcategoryId);
      if d.festivalId != "" {
        data := data + [("festival", Plain(d.festivalId))];
      }
      ghost var fixed := data;
      assert fixed == withSubcategory + OptionalPart("festival", d.festivalId);
      var k := 0;
      while k < |d.images|
        invariant 0 <= k <= |d.images|
        invariant |data| == |fixed| + k && data[..|fixed|] == fixed
        invariant forall j :: 0 <= j < k ==> data[|fixed| + j] == ("images", Upload(d.images[j]))
      {
        data := data + [("images", Upload(d.images[k]))];
        k := k + 1;
      }
      assert data == fixed + ImageParts(d.images);
      outcome := Success(data);
    }
  }
}
