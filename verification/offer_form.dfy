/** The "create offer" form: its draft, the validator that fills the
    per-field error messages, the payload sent on submit, and the input
    handlers that edit the draft. */
module OfferForm {
  import opened Wrappers
  import opened Text
  import opened NumberInput
  import opened Json

  type Id = string

  datatype OfferType = Percent | Flat

  /** The offer's applicability mode: "all", "selected", "category" or "festival". */
  datatype AppliesTo = AllProducts | SelectedProducts | ByCategory | ByFestival

  /** The three id lists an offer can target. */
  datatype Target = Products | Categories | Festivals

  /** The form state. A date is the instant, in milliseconds, of midnight UTC
      of the chosen day; `None` is an empty date input. */
  datatype OfferDraft = OfferDraft(
    title: string,
    kind: OfferType,
    value: NumberText,
    appliesTo: AppliesTo,
    products: seq<Id>,
    categories: seq<Id>,
    festivals: seq<Id>,
    startDate: Option<int>,
    endDate: Option<int>,
    description: string)

  /** The draft the form starts from and returns to on reset. */
  const InitialDraft := OfferDraft("", Percent, Blank, AllProducts, [], [], [], None, None, "")

  /** `selectorToShow`: the id list the current mode asks for, if any. */
  function SelectorToShow(m: AppliesTo): (r: Option<Target>)
    ensures r == None <==> m == AllProducts
    ensures r == Some(Products) <==> m == SelectedProducts
    ensures r == Some(Categories) <==> m == ByCategory
    ensures r == Some(Festivals) <==> m == ByFestival
  {
    match m
    case SelectedProducts => Some(Products)
    case ByCategory => Some(Categories)
    case ByFestival => Some(Festivals)
    case AllProducts => None
  }

  function TargetIds(d: OfferDraft, t: Target): seq<Id> {
    match t
    case Products => d.products
    case Categories => d.categories
    case Festivals => d.festivals
  }

  // ----- validation -----

  datatype Field = TitleField | ValueField | StartDateField | EndDateField | TargetField(target: Target)

  const AllFields: set<Field> := {TitleField, ValueField, StartDateField, EndDateField,
    TargetField(Products), TargetField(Categories), TargetField(Festivals)}

  const TitleRequired := "Title is required"
  const ValueRequired := "Discount value is required"
  const ValueNotPositive := "Value must be greater than 0"
  const PercentTooHigh := "Percentage cannot exceed 100%"
  const StartRequired := "Start date is required"
  const EndRequired := "End date is required"
  const EndBeforeStart := "End date must be after start date"

  function TargetRequired(t: Target): string {
    match t
    case Products => "Select at least one product"
    case Categories => "Select at least one category"
    case Festivals => "Select at least one festival"
  }

  /** The message a field is left with once every rule has run: where two
      rules fire on one field, the later rule's message is the one kept. */
  function FieldError(d: OfferDraft, f: Field): (r: Option<string>) {
    match f
    case TitleField =>
      if Trim(d.title) == "" then Some(TitleRequired) else None
    case ValueField =>
      if d.kind == Percent && ToNumber(d.value) > 100.0 then Some(PercentTooHigh)
      else if ToNumber(d.value) <= 0.0 then Some(ValueNotPositive)
      else if !Truthy(d.value) then Some(ValueRequired)
      else None
    case StartDateField =>
      if d.startDate.None? then Some(StartRequired) else None
    case EndDateField =>
      if d.startDate.Some? && d.endDate.Some? && d.startDate.value > d.endDate.value then Some(EndBeforeStart)
      else if d.endDate.None? then Some(EndRequired)
      else None
    case TargetField(t) =>
      if SelectorToShow(d.appliesTo) == Some(t) && |TargetIds(d, t)| == 0 then Some(TargetRequired(t))
      else None
  }

  /** The error map `validateForm` produces for a draft. */
  function FormErrors(d: OfferDraft): map<Field, string> {
    map f | f in AllFields && FieldError(d, f).Some? :: FieldError(d, f).value
  }

  /** What a submittable offer is, rule by rule. */
  predicate ValidDraft(d: OfferDraft) {
    && Trim(d.title) != ""
    && d.value.Numeric? && ToNumber(d.value) > 0.0
    && (d.kind == Percent ==> ToNumber(d.value) <= 100.0)
    && d.startDate.Some? && d.endDate.Some? && d.startDate.value <= d.endDate.value
    && (d.appliesTo == SelectedProducts ==> |d.products| > 0)
    && (d.appliesTo == ByCategory ==> |d.categories| > 0)
    && (d.appliesTo == ByFestival ==> |d.festivals| > 0)
  }

  lemma InFormErrors(d: OfferDraft, f: Field)
    ensures f in FormErrors(d) <==> FieldError(d, f).Some?
    ensures f in FormErrors(d) ==> FormErrors(d)[f] == FieldError(d, f).value
  {
    match f {
      case TargetField(t) =>
        match t {
          case Products => assert f in AllFields;
          case Categories => assert f in AllFields;
          case Festivals => assert f in AllFields;
        }
      case _ => assert f in AllFields;
    }
  }

  /** `if (cond) newErrors.f = msg` */
  function SetIf(m: map<Field, string>, cond: bool, f: Field, msg: string): map<Field, string> {
    if cond then m[f := msg] else m
  }

  /** The title rule of `validateForm`. */
  function TitleRule(m: map<Field, string>, d: OfferDraft): map<Field, string> {
    SetIf(m, Trim(d.title) == "", TitleField, TitleRequired)
  }

  /** The three value rules, in the order they run. */
  function ValueRule(m: map<Field, string>, d: OfferDraft): map<Field, string> {
    var m1 := SetIf(m, !Truthy(d.value), ValueField, ValueRequired);
    var m2 := SetIf(m1, ToNumber(d.value) <= 0.0, ValueField, ValueNotPositive);
    SetIf(m2, d.kind == Percent && ToNumber(d.value) > 100.0, ValueField, PercentTooHigh)
  }

  function StartRule(m: map<Field, string>, d: OfferDraft): map<Field, string> {
    SetIf(m, d.startDate.None?, StartDateField, StartRequired)
  }

  /** The two end-date rules, in the order they run. */
  function EndRule(m: map<Field, string>, d: OfferDraft): map<Field, string> {
    var m1 := SetIf(m, d.endDate.None?, EndDateField, EndRequired);
    SetIf(m1, d.startDate.Some? && d.endDate.Some? && d.startDate.value > d.endDate.value,
          EndDateField, EndBeforeStart)
  }

  /** The rule for the id list of mode `mode`. */
  function ListRule(m: map<Field, string>, d: OfferDraft, mode: AppliesTo, t: Target): map<Field, string> {
    SetIf(m, d.appliesTo == mode && |TargetIds(d, t)| == 0, TargetField(t), TargetRequired(t))
  }

  /** The title, value and date rules, in source order, from an empty map. */
  function ScalarErrors(d: OfferDraft): map<Field, string> {
    EndRule(StartRule(ValueRule(TitleRule(map[], d), d), d), d)
  }

  /** Every rule of `validateForm`, in source order, from an empty map. */
  function RuleErrors(d: OfferDraft): map<Field, string> {
    var withCategories := ListRule(ScalarErrors(d), d, ByCategory, Categories);
    var withFestivals := ListRule(withCategories, d, ByFestival, Festivals);
    ListRule(withFestivals, d, SelectedProducts, Products)
  }

  /** `m` holds exactly the final messages of the fields in `fs`. */
  ghost predicate AgreesOn(m: map<Field, string>, d: OfferDraft, fs: set<Field>) {
    && m.Keys <= fs
    && (forall f :: f in fs ==> (f in m <==> FieldError(d, f).Some?))
    && (forall f :: f in m ==> FieldError(d, f) == Some(m[f]))
  }

  /** Setting field `f` to its final message, if any, on a map that already
      agrees on `fs` makes it agree on `fs` and `f`. */
  lemma AgreesStep(before: map<Field, string>, after: map<Field, string>, d: OfferDraft, fs: set<Field>, f: Field)
    requires AgreesOn(before, d, fs) && f !in fs
    requires after == if FieldError(d, f).Some? then before[f := FieldError(d, f).value] else before
    ensures AgreesOn(after, d, fs + {f})
  {
  }

  /** Each rule group leaves its field with exactly its final message. */
  lemma TitleRuleSetsFinalMessage(m: map<Field, string>, d: OfferDraft)
    ensures TitleRule(m, d) == if FieldError(d, TitleField).Some? then m[TitleField := TitleRequired] else m
    ensures FieldError(d, TitleField).Some? <==> AllSpace(d.title)
  {
    TrimEmptyIff(d.title);
  }

  lemma ValueRuleSetsFinalMessage(m: map<Field, string>, d: OfferDraft)
    ensures ValueRule(m, d) == if FieldError(d, ValueField).Some? then m[ValueField := FieldError(d, ValueField).value] else m
  {
    var n := ToNumber(d.value);
    if d.kind == Percent && n > 100.0 {
      assert ValueRule(m, d) == m[ValueField := PercentTooHigh];
    } else if n <= 0.0 {
      assert ValueRule(m, d) == m[ValueField := ValueNotPositive];
    }
  }

  lemma StartRuleSetsFinalMessage(m: map<Field, string>, d: OfferDraft)
    ensures StartRule(m, d) == if FieldError(d, StartDateField).Some? then m[StartDateField := StartRequired] else m
  {
  }

  lemma EndRuleSetsFinalMessage(m: map<Field, string>, d: OfferDraft)
    ensures EndRule(m, d) == if FieldError(d, EndDateField).Some? then m[EndDateField := FieldError(d, EndDateField).value] else m
  {
    if d.startDate.Some? && d.endDate.Some? && d.startDate.value > d.endDate.value {
      assert EndRule(m, d) == m[EndDateField := EndBeforeStart];
    }
  }

  lemma ListRuleSetsFinalMessage(m: map<Field, string>, d: OfferDraft, mode: AppliesTo, t: Target)
    requires SelectorToShow(mode) == Some(t)
    ensures ListRule(m, d, mode, t) ==
      if FieldError(d, TargetField(t)).Some? then m[TargetField(t) := TargetRequired(t)] else m
  {
  }

  const ScalarFields: set<Field> := {TitleField, ValueField, StartDateField, EndDateField}

  /** After the title, value and date rules the map agrees on those four fields. */
  lemma ScalarRulesAgree(d: OfferDraft)
    ensures AgreesOn(ScalarErrors(d), d, ScalarFields)
  {
    var m1 := TitleRule(map[], d);
    var m2 := ValueRule(m1, d);
    var m3 := StartRule(m2, d);
    TitleRuleSetsFinalMessage(map[], d);
    AgreesStep(map[], m1, d, {}, TitleField);
    ValueRuleSetsFinalMessage(m1, d);
    AgreesStep(m1, m2, d, {TitleField}, ValueField);
    StartRuleSetsFinalMessage(m2, d);
    AgreesStep(m2, m3, d, {TitleField, ValueField}, StartDateField);
    EndRuleSetsFinalMessage(m3, d);
    AgreesStep(m3, EndRule(m3, d), d, {TitleField, ValueField, StartDateField}, EndDateField);
  }

  /** One list rule extends agreement to its list's field. */
  lemma ListRuleAgrees(m: map<Field, string>, d: OfferDraft, fs: set<Field>, mode: AppliesTo, t: Target)
    requires AgreesOn(m, d, fs) && TargetField(t) !in fs && SelectorToShow(mode) == Some(t)
    ensures AgreesOn(ListRule(m, d, mode, t), d, fs + {TargetField(t)})
  {
    ListRuleSetsFinalMessage(m, d, mode, t);
    AgreesStep(m, ListRule(m, d, mode, t), d, fs, TargetField(t));
  }

  lemma CategoryRuleAgrees(d: OfferDraft)
    ensures AgreesOn(ListRule(ScalarErrors(d), d, ByCategory, Categories), d,
                     ScalarFields + {TargetField(Categories)})
  {
    ScalarRulesAgree(d);
    ListRuleAgrees(ScalarErrors(d), d, ScalarFields, ByCategory, Categories);
  }

  lemma FestivalRuleAgrees(d: OfferDraft)
    ensures AgreesOn(ListRule(ListRule(ScalarErrors(d), d, ByCategory, Categories), d, ByFestival, Festivals), d,
                     ScalarFields + {TargetField(Categories)} + {TargetField(Festivals)})
  {
    var m := ListRule(ScalarErrors(d), d, ByCategory, Categories);
    var fs := ScalarFields + {TargetField(Categories)};
    assert TargetField(Festivals) !in fs;
    CategoryRuleAgrees(d);
    ListRuleAgrees(m, d, fs, ByFestival, Festivals);
  }

  /** Running the rules in source order yields the final message of every field. */
  lemma RuleErrorsAreFormErrors(d: OfferDraft)
    ensures RuleErrors(d) == FormErrors(d)
  {
    var m := ListRule(ListRule(ScalarErrors(d), d, ByCategory, Categories), d, ByFestival, Festivals);
    var fs := ScalarFields + {TargetField(Categories)} + {TargetField(Festivals)};
    assert TargetField(Products) !in fs;
    assert fs + {TargetField(Products)} == AllFields;
    FestivalRuleAgrees(d);
    ListRuleAgrees(m, d, fs, SelectedProducts, Products);
    AgreesOnAllFields(RuleErrors(d), d);
  }

  lemma AgreesOnAllFields(m: map<Field, string>, d: OfferDraft)
    requires AgreesOn(m, d, AllFields)
    ensures m == FormErrors(d)
  {
    forall f | f in AllFields ensures (f in m <==> f in FormErrors(d)) {
      InFormErrors(d, f);
    }
    forall f | f in m ensures m[f] == FormErrors(d)[f] {
      InFormErrors(d, f);
    }
  }

  /** A draft meeting every rule leaves every field without a message. */
  lemma ValidFieldClean(d: OfferDraft, f: Field)
    requires ValidDraft(d)
    ensures FieldError(d, f).None?
  {
    match f {
      case TargetField(t) =>
        match t {
          case Products =>
          case Categories =>
          case Festivals =>
        }
      case _ =>
    }
  }

  /** A draft without any message meets every rule. */
  lemma NoErrorsMeansValid(d: OfferDraft)
    requires FormErrors(d) == map[]
    ensures ValidDraft(d)
  {
    InFormErrors(d, TitleField);
    InFormErrors(d, ValueField);
    InFormErrors(d, StartDateField);
    InFormErrors(d, EndDateField);
    InFormErrors(d, TargetField(Products));
    InFormErrors(d, TargetField(Categories));
    InFormErrors(d, TargetField(Festivals));
  }

  /** `validateForm` reports no error exactly for the drafts that meet every rule. */
  lemma NoErrorsIffValid(d: OfferDraft)
    ensures FormErrors(d) == map[] <==> ValidDraft(d)
  {
    if ValidDraft(d) {
      forall f | f in FormErrors(d) ensures false {
        InFormErrors(d, f);
        ValidFieldClean(d, f);
      }
    } else if FormErrors(d) == map[] {
      NoErrorsMeansValid(d);
    }
  }

  /** A missing title or date is always reported on its own field. */
  lemma MissingRequiredFieldReported(d: OfferDraft)
    ensures Trim(d.title) == "" ==> TitleField in FormErrors(d)
    ensures !Truthy(d.value) ==> ValueField in FormErrors(d)
    ensures d.startDate.None? ==> StartDateField in FormErrors(d)
    ensures d.endDate.None? ==> EndDateField in FormErrors(d)
  {
    InFormErrors(d, TitleField);
    InFormErrors(d, ValueField);
    InFormErrors(d, StartDateField);
    InFormErrors(d, EndDateField);
  }

  /** An empty value ends with the "greater than 0" message, because the
      positivity rule runs after the presence rule and `Number("")` is 0; so
      the "required" message is never the one shown. */
  lemma EmptyValueMessage(d: OfferDraft)
    ensures !Truthy(d.value) ==> FormErrors(d)[ValueField] == ValueNotPositive
    ensures ValueField in FormErrors(d) ==> FormErrors(d)[ValueField] != ValueRequired
  {
    assert FieldError(d, ValueField) != Some(ValueRequired);
    if !Truthy(d.value) {
      assert FieldError(d, ValueField) == Some(ValueNotPositive);
    }
  }

  /** A start date after the end date replaces any end-date message with the
      ordering message. */
  lemma EndBeforeStartReported(d: OfferDraft)
    requires d.startDate.Some? && d.endDate.Some? && d.startDate.value > d.endDate.value
    ensures FormErrors(d)[EndDateField] == EndBeforeStart
  {
    assert FieldError(d, EndDateField) == Some(EndBeforeStart);
  }

  /** Only the list the mode selects is checked: it is reported exactly when
      it is empty, and in mode "all" no list is ever reported. */
  lemma OnlySelectedListChecked(d: OfferDraft, t: Target)
    ensures TargetField(t) in FormErrors(d) <==> SelectorToShow(d.appliesTo) == Some(t) && TargetIds(d, t) == []
    ensures d.appliesTo == AllProducts ==> TargetField(t) !in FormErrors(d)
  {
    assert TargetField(t) in AllFields;
  }

  /** A draft with an empty title and an end date before its start date is
      reported on both fields. */
  lemma TitleAndOrderReportedTogether(d: OfferDraft)
    requires d.title == "" && d.value == Numeric(10.0)
    requires d.startDate == Some(1_704_067_200_000) && d.endDate == Some(1_672_531_200_000)
    ensures FormErrors(d)[TitleField] == TitleRequired
    ensures FormErrors(d)[EndDateField] == EndBeforeStart
  {
    assert FieldError(d, TitleField) == Some(TitleRequired);
    EndBeforeStartReported(d);
  }

  /** `errors.f` is truthy: the message is shown under the input. */
  predicate ErrorShown(errors: map<Field, string>, f: Field) {
    f in errors && errors[f] != ""
  }

  /** `if (errors.f) setErrors(p => ({ ...p, f: "" }))`: editing a field
      blanks its shown message and leaves the others alone. */
  function ClearShown(errors: map<Field, string>, f: Field): (r: map<Field, string>)
    ensures !ErrorShown(r, f)
    ensures r.Keys == errors.Keys
    ensures forall g :: g in errors && g != f ==> r[g] == errors[g]
  {
    if ErrorShown(errors, f) then errors[f := ""] else errors
  }

  // ----- payload -----

  /** The JSON body posted to the offers endpoint. */
  datatype OfferPayload = OfferPayload(
    title: string,
    kind: OfferType,
    value: real,
    appliesTo: AppliesTo,
    startDate: Option<int>,
    endDate: Option<int>,
    description: string,
    products: Option<Json>,
    categories: Option<Json>,
    festivals: Option<Json>)

  function PayloadTarget(p: OfferPayload, t: Target): Option<Json> {
    match t
    case Products => p.products
    case Categories => p.categories
    case Festivals => p.festivals
  }

  /** `p` is the body `createOffer` builds from draft `d`: the plain fields
      copied, `value` as a number, and the one list the mode selects,
      serialised. */
  predicate Describes(p: OfferPayload, d: OfferDraft) {
    && p.title == d.title && p.kind == d.kind && p.value == ToNumber(d.value)
    && p.appliesTo == d.appliesTo && p.startDate == d.startDate && p.endDate == d.endDate
    && p.description == d.description
    && forall t :: PayloadTarget(p, t) ==
         if SelectorToShow(d.appliesTo) == Some(t) then Some(StringsJson(TargetIds(d, t))) else None
  }

  /** A body carries no list in mode "all" and exactly one list otherwise,
      from which the selected ids can be recovered. */
  lemma PayloadCarriesOneList(p: OfferPayload, d: OfferDraft, t: Target, u: Target, ids: seq<Id>)
    requires Describes(p, d)
    ensures d.appliesTo == AllProducts ==> PayloadTarget(p, t).None?
    ensures PayloadTarget(p, t).Some? && PayloadTarget(p, u).Some? ==> t == u
    ensures d.appliesTo != AllProducts ==> PayloadTarget(p, SelectorToShow(d.appliesTo).value).Some?
    ensures PayloadTarget(p, t) == Some(StringsJson(ids)) ==> ids == TargetIds(d, t)
  {
    if PayloadTarget(p, t) == Some(StringsJson(ids)) {
      StringsJsonInjective(ids, TargetIds(d, t));
    }
  }

  /** The body of a valid draft carries a positive value, at most 100 for a
      percentage, and ordered dates. */
  lemma ValidPayloadBounds(p: OfferPayload, d: OfferDraft)
    requires Describes(p, d) && ValidDraft(d)
    ensures 0.0 < p.value && (p.kind == Percent ==> p.value <= 100.0)
    ensures p.startDate.Some? && p.endDate.Some? && p.startDate.value <= p.endDate.value
  {
  }

  /** `Object.keys(m).length === 0` holds exactly for the empty map. */
  lemma EmptyIffNoKeys(m: map<Field, string>)
    ensures |m| == 0 <==> m == map[]
  {
    if m != map[] {
      var f :| f in m;
      assert f in m.Keys;
    }
  }

  /** The offer form component: the draft and the error messages it shows. */
  class OfferEditor {
    var form: OfferDraft
    var errors: map<Field, string>

    constructor ()
      ensures form == InitialDraft && errors == map[]
    {
      form := InitialDraft;
      errors := map[];
    }

    /** `validateForm`: rebuild the error map rule by rule, store it, and
        report whether it is empty. */
    method ValidateForm() returns (ok: bool)
      modifies this`errors
      ensures errors == FormErrors(form)
      ensures ok <==> ValidDraft(form)
    {
      var d := form;
      var newErrors: map<Field, string> := map[];
      newErrors := TitleRule(newErrors, d);
      newErrors := ValueRule(newErrors, d);
      newErrors := StartRule(newErrors, d);
      newErrors := EndRule(newErrors, d);
      newErrors := ListRule(newErrors, d, ByCategory, Categories);
      newErrors := ListRule(newErrors, d, ByFestival, Festivals);
      newErrors := ListRule(newErrors, d, SelectedProducts, Products);
      RuleErrorsAreFormErrors(d);
      errors := newErrors;
      NoErrorsIffValid(d);
      ok := |newErrors| == 0;
      EmptyIffNoKeys(newErrors);
      assert ok <==> FormErrors(d) == map[];
      assert ok <==> ValidDraft(d);
      assert d == form;
    }

    /** The body `createOffer` posts: the fixed fields, then the one list the
        mode selects. */
    method BuildPayload() returns (p: OfferPayload)
      ensures Describes(p, form)
    {
      p := OfferPayload(form.title, form.kind, ToNumber(form.value), form.appliesTo,
                        form.startDate, form.endDate, form.description, None, None, None);
      if form.appliesTo == SelectedProducts { p := p.(products := Some(StringsJson(form.products))); }
      if form.appliesTo == ByCategory { p := p.(categories := Some(StringsJson(form.categories))); }
      if form.appliesTo == ByFestival { p := p.(festivals := Some(StringsJson(form.festivals))); }
    }

    /** `createOffer`: validate; on failure show the errors and send nothing;
        otherwise post the body and, when the server reports success, reset
        the form. `accepted` is the server's verdict. */
    method CreateOffer(accepted: bool) returns (sent: Option<OfferPayload>)
      modifies this
      ensures sent.None? <==> !ValidDraft(old(form))
      ensures sent.Some? ==> Describes(sent.value, old(form))
      ensures errors == if sent.Some? then map[] else FormErrors(old(form))
      ensures form == if sent.Some? && accepted then InitialDraft else old(form)
    {
      var ok := ValidateForm();
      if !ok {
        return None;
      }
      NoErrorsIffValid(form);
      var p := BuildPayload();
      sent := Some(p);
      if accepted {
        ResetForm();
      }
    }

    /** `resetForm` */
    method ResetForm()
      modifies this
      ensures form == InitialDraft && errors == map[]
    {
      form := InitialDraft;
      errors := map[];
    }

    /** The mode selector: switching mode empties all three id lists and
        changes nothing else. */
    method ChangeAppliesTo(m: AppliesTo)
      modifies this`form
      ensures form == old(form).(appliesTo := m, products := [], categories := [], festivals := [])
    {
      form := form.(appliesTo := m, products := [], categories := [], festivals := []);
    }

    /** The title input. */
    method EditTitle(s: string)
      modifies this
      ensures form == old(form).(title := s)
      ensures errors == ClearShown(old(errors), TitleField)
    {
      form := form.(title := s);
      errors := ClearShown(errors, TitleField);
    }

    /** The value input. */
    method EditValue(v: NumberText)
      modifies this
      ensures form == old(form).(value := v)
      ensures errors == ClearShown(old(errors), ValueField)
    {
      form := form.(value := v);
      errors := ClearShown(errors, ValueField);
    }

    /** The start-date input. */
    method EditStartDate(day: Option<int>)
      modifies this
      ensures form == old(form).(startDate := day)
      ensures errors == ClearShown(old(errors), StartDateField)
    {
      form := form.(startDate := day);
      errors := ClearShown(errors, StartDateField);
    }

    /** The end-date input. */
    method EditEndDate(day: Option<int>)
      modifies this
      ensures form == old(form).(endDate := day)
      ensures errors == ClearShown(old(errors), EndDateField)
    {
      form := form.(endDate := day);
      errors := ClearShown(errors, EndDateField);
    }

    /** The description input (no validation rule). */
    method EditDescription(s: string)
      modifies this`form
      ensures form == old(form).(description := s)
    {
      form := form.(description := s);
    }

    /** The offer-type selector (no validation rule of its own). */
    method EditKind(k: OfferType)
      modifies this`form
      ensures form == old(form).(kind := k)
    {
      form := form.(kind := k);
    }

    /** The `setSelected` callback of the multi-select for list `t`: store the
        new selection and blank that list's shown message. */
    method SetTargets(t: Target, ids: seq<Id>)
      modifies this
      ensures TargetIds(form, t) == ids
      ensures forall u :: u != t ==> TargetIds(form, u) == TargetIds(old(form), u)
      ensures form.(products := [], categories := [], festivals := [])
           == old(form).(products := [], categories := [], festivals := [])
      ensures errors == ClearShown(old(errors), TargetField(t))
    {
      match t {
        case Products => form := form.(products := ids);
        case Categories => form := form.(categories := ids);
        case Festivals => form := form.(festivals := ids);
      }
      errors := ClearShown(errors, TargetField(t));
    }
  }
}
