/** What the "add menu item" and "edit menu item" forms share: variants and
    the handlers that edit them, the image cap, the branch checkboxes, the
    cleaned variants, and the multipart body (`FormData`) they post. */
module MenuItem {
  import opened Wrappers
  import opened Lists
  import opened NumberInput
  import opened Json

  /** A file picked in the file input; only its identity matters here. */
  datatype ImageFile = ImageFile(handle: nat)

  /** The most images one menu item may carry. */
  const MAX_IMAGES := 5

  /** A row of the variant editor. Its label (`caption`) is missing only for a variant
      loaded from the server without one. */
  datatype Variant = Variant(caption: Option<string>, price: NumberText)

  /** `{ label: "", price: "" }` */
  const BlankVariant := Variant(Some(""), Blank)

  // ----- variants -----

  /** `updateVariant(i, field, value)`: which field receives which value. */
  datatype VariantEdit = SetLabel(caption: string) | SetPrice(price: NumberText)

  /** `copy[i][field] = value`: row `i` gets the new value in the edited field;
      every other row, and the row's other field, stay as they were. */
  function UpdateVariant(vs: seq<Variant>, i: nat, e: VariantEdit): (r: seq<Variant>)
    requires i < |vs|
    ensures |r| == |vs|
    ensures forall j :: 0 <= j < |vs| && j != i ==> r[j] == vs[j]
    ensures e.SetLabel? ==> r[i].caption == Some(e.caption) && r[i].price == vs[i].price
    ensures e.SetPrice? ==> r[i].price == e.price && r[i].caption == vs[i].caption
  {
    var v := vs[i];
    var updated := match e
      case SetLabel(s) => v.(caption := Some(s))
      case SetPrice(p) => v.(price := p);
    vs[i := updated]
  }

  /** `addVariant`: one blank row appended after the existing ones. */
  function AddVariant(vs: seq<Variant>): (r: seq<Variant>)
    ensures |r| == |vs| + 1 && r[..|vs|] == vs && r[|vs|] == BlankVariant
  {
    vs + [BlankVariant]
  }

  /** `removeVariant(i)`: the last remaining row cannot be removed; otherwise
      row `i` goes and the others keep their order. */
  function RemoveVariant(vs: seq<Variant>, i: int): (r: seq<Variant>)
    ensures |vs| == 1 ==> r == vs
    ensures |vs| != 1 && 0 <= i < |vs| ==> r == vs[..i] + vs[i + 1..]
    ensures |vs| != 1 && !(0 <= i < |vs|) ==> r == vs
  {
    DropIndexSpec(vs, i);
    if |vs| == 1 then vs else DropIndex(vs, i)
  }

  /** Neither adding nor removing rows can empty a non-empty variant list. */
  lemma VariantsNeverEmpty(vs: seq<Variant>, i: int)
    requires |vs| >= 1
    ensures |RemoveVariant(vs, i)| >= 1
    ensures |AddVariant(vs)| >= 1
  {
    if |vs| != 1 && 0 <= i < |vs| {
      assert |vs[..i] + vs[i + 1..]| == |vs| - 1;
    }
  }

  // ----- images -----

  /** `[...prev, ...files].slice(0, cap)` */
  function TakeImages(prev: seq<ImageFile>, files: seq<ImageFile>, cap: int): seq<ImageFile> {
    SliceTo(prev + files, cap)
  }

  /** With a non-negative cap the selection keeps the held images first and
      then the new files, in order, keeps as many as fit under the cap, and
      loses nothing when everything fits; a full list stays as it is. */
  lemma TakeImagesCap(prev: seq<ImageFile>, files: seq<ImageFile>, cap: int)
    requires cap >= 0
    ensures |TakeImages(prev, files, cap)| <= cap
    ensures TakeImages(prev, files, cap) == (prev + files)[..|TakeImages(prev, files, cap)|]
    ensures |prev| + |files| <= cap ==> TakeImages(prev, files, cap) == prev + files
    ensures |prev| < cap && files != [] ==> |TakeImages(prev, files, cap)| > |prev|
    ensures |TakeImages(prev, files, cap)| == if |prev| + |files| <= cap then |prev| + |files| else cap
    ensures |prev| == cap ==> TakeImages(prev, files, cap) == prev
  {
    SliceToCap(prev + files, cap);
    if |prev| == cap {
      assert (prev + files)[..cap] == prev;
    }
  }

  // ----- branches -----

  /** The branch checkbox: checking appends the branch id, unchecking removes
      every occurrence of it. */
  function ToggleBranch(selected: seq<string>, id: string, checked: bool): seq<string> {
    if checked then selected + [id] else RemoveAll(selected, id)
  }

  /** Checking selects `id` and keeps the earlier selection in front of it;
      unchecking deselects `id` and no other branch. */
  lemma ToggleBranchSpec(selected: seq<string>, id: string, checked: bool, other: string)
    ensures checked ==> |ToggleBranch(selected, id, true)| == |selected| + 1
                        && ToggleBranch(selected, id, true)[..|selected|] == selected
                        && id in ToggleBranch(selected, id, true)
    ensures !checked ==> id !in ToggleBranch(selected, id, false)
    ensures !checked && other != id ==> (other in ToggleBranch(selected, id, false) <==> other in selected)
  {
    if checked {
      assert ToggleBranch(selected, id, true)[|selected|] == id;
    } else {
      RemoveAllMembership(selected, id, id);
      RemoveAllMembership(selected, id, other);
    }
  }

  /** Checking a branch that was not selected and unchecking it again gives
      back the selection as it was. */
  lemma {:induction false} CheckThenUncheck(selected: seq<string>, id: string)
    requires id !in selected
    ensures ToggleBranch(ToggleBranch(selected, id, true), id, false) == selected
  {
    RemoveAllAppend(selected, [id], id);
    RemoveAllAbsent(selected, id);
    assert RemoveAll([id], id) == [];
  }

  // ----- cleaned variants and their JSON -----

  /** A variant as it is sent to the server. */
  datatype CleanVariant = CleanVariant(caption: string, price: real)

  /** `JSON.stringify(cleanedVariants)` */
  function VariantsJson(cs: seq<CleanVariant>): Json {
    JArr(Map(cs, (c: CleanVariant) => JObj([("label", JStr(c.caption)), ("price", JNum(c.price))])))
  }

  /** `JSON.stringify({ enabled, minDays, prepaidRequired })` */
  function PreorderJson(enabled: bool, minDays: real, prepaidRequired: bool): Json {
    JObj([("enabled", JBool(enabled)), ("minDays", JNum(minDays)), ("prepaidRequired", JBool(prepaidRequired))])
  }

  /** `FormData.append` of a boolean sends its string form. */
  function BoolText(b: bool): string {
    if b then "true" else "false"
  }

  // ----- the multipart body -----

  /** One value of a `FormData` body. */
  datatype Part = Plain(s: string) | Encoded(j: Json) | Upload(file: ImageFile)

  type NamedPart = (string, Part)

  /** Why a submit stopped before sending anything; each is an alert. */
  datatype Abort =
    | NoCategory       // "Please select a category"
    | NoImages         // "Please upload at least one image"
    | MissingPrice     // "Please enter price"
    | NoPricedVariant  // "At least one variant price is required"
    | NoBranch         // "Please select at least one branch"

  /** `images.forEach(img => data.append("images", img))` */
  function ImageParts(files: seq<ImageFile>): (r: seq<NamedPart>)
    ensures |r| == |files|
    ensures forall k :: 0 <= k < |files| ==> r[k] == ("images", Upload(files[k]))
  {
    Map(files, (f: ImageFile) => ("images", Upload(f)))
  }

  /** `data.get(name)`: the first value appended under `name`, if any. */
  function FormGet(parts: seq<NamedPart>, name: string): Option<Part> {
    if parts == [] then None
    else if parts[0].0 == name then Some(parts[0].1)
    else FormGet(parts[1..], name)
  }

  /** No part named `name` in `parts`. */
  predicate Lacks(parts: seq<NamedPart>, name: string) {
    forall k :: 0 <= k < |parts| ==> parts[k].0 != name
  }

  /** Two bodies without a part named `name` give one without it. */
  lemma LacksAppend(a: seq<NamedPart>, b: seq<NamedPart>, name: string)
    requires Lacks(a, name) && Lacks(b, name)
    ensures Lacks(a + b, name)
  {
    forall k | 0 <= k < |a + b| ensures (a + b)[k].0 != name {
      if k >= |a| {
        assert (a + b)[k] == b[k - |a|];
      }
    }
  }

  /** A body whose first parts lack `name` answers `get(name)` from the rest. */
  lemma {:induction false} FormGetSkips(a: seq<NamedPart>, b: seq<NamedPart>, name: string)
    requires Lacks(a, name)
    ensures FormGet(a + b, name) == FormGet(b, name)
  {
    if a != [] {
      assert (a + b)[1..] == a[1..] + b;
      FormGetSkips(a[1..], b, name);
    } else {
      assert a + b == b;
    }
  }

  /** `get(name)` finds the first part named `name`. */
  lemma FormGetFinds(a: seq<NamedPart>, b: seq<NamedPart>, name: string)
    requires Lacks(a, name) && b != [] && b[0].0 == name
    ensures FormGet(a + b, name) == Some(b[0].1)
  {
    FormGetSkips(a, b, name);
  }

  /** A body without any part named `name` has nothing under it. */
  lemma {:induction false} FormGetLacking(parts: seq<NamedPart>, name: string)
    requires Lacks(parts, name)
    ensures FormGet(parts, name) == None
  {
    if parts != [] {
      FormGetLacking(parts[1..], name);
    }
  }

  /** The files a body uploads under "images", in order. */
  function Uploads(parts: seq<NamedPart>): seq<ImageFile> {
    if parts == [] then [] else UploadOf(parts[0]) + Uploads(parts[1..])
  }

  /** The file one part uploads under "images", if it does. */
  function UploadOf(p: NamedPart): seq<ImageFile> {
    if p.0 == "images" && p.1.Upload? then [p.1.file] else []
  }

  lemma {:induction false} UploadsAppend(a: seq<NamedPart>, b: seq<NamedPart>)
    ensures Uploads(a + b) == Uploads(a) + Uploads(b)
  {
    if a == [] {
      assert a + b == b;
    } else {
      var h := UploadOf(a[0]);
      assert (a + b)[0] == a[0] && (a + b)[1..] == a[1..] + b;
      assert Uploads(a + b) == h + Uploads(a[1..] + b);
      UploadsAppend(a[1..], b);
      assert Uploads(a) == h + Uploads(a[1..]);
    }
  }

  lemma {:induction false} UploadsLacking(parts: seq<NamedPart>)
    requires Lacks(parts, "images")
    ensures Uploads(parts) == []
  {
    if parts != [] {
      UploadsLacking(parts[1..]);
    }
  }

  /** The server gets back exactly the selected files, in order. */
  lemma {:induction false} ImagePartsRoundTrip(files: seq<ImageFile>)
    ensures Uploads(ImageParts(files)) == files
  {
    if files != [] {
      ImagePartsRoundTrip(files[1..]);
      assert ImageParts(files)[1..] == ImageParts(files[1..]);
      assert files == [files[0]] + files[1..];
    }
  }

  /** `if (x) data.append(name, x)`: the part is present only for a non-empty value. */
  function OptionalPart(name: string, value: string): seq<NamedPart> {
    if value != "" then [(name, Plain(value))] else []
  }
}
