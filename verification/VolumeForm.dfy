/** The decision logic of web/frontend/components/VolumeForm.jsx: whether the
    form edits an existing discount, the value each field starts from, which
    of the four relay routes a submission goes to with which body, and how the
    platform's user errors decide the outcome. Rendering, hooks and the
    App Bridge redirect are left out; the redirect is a flag of the outcome,
    the clock's current date is the parameter `today`, and the serialisation
    of the configuration into the metafield value is the parameter `serialise`. */
module VolumeForm {
  import opened Wrappers
  import opened JsValues
  import opened DiscountCodeApi

  /** The discount-app library's method constants; only their distinctness matters. */
  const MethodCode: Js := Str("Code")
  const MethodAutomatic: Js := Str("Automatic")
  /** The library's "no minimum requirement" constant (a non-empty string). */
  const RequirementNone: Js := Str("None")

  const MetafieldNamespace: string := "discount-tutorial"
  const MetafieldConfigurationKey: string := "volume-config"
  const FunctionId: string := "3c50efac-21ea-447e-8529-e4e8b1efcc7f"

  /** `isEdit` once the mount effect has run: it starts `true` and the effect
      clears it only when the `volume` prop is `undefined`. */
  function IsEdit(volume: Js): (edit: bool)
    ensures !edit <==> volume == Undefined
    ensures volume == Null ==> edit
  {
    !volume.Undefined?
  }

  /** The field values the form holds; `onSubmit` receives them as a snapshot. */
  datatype Form = Form(
    discountTitle: Js,
    discountMethod: Js,
    discountCode: Js,
    combinesWith: Js,
    requirementType: Js,
    requirementSubtotal: Js,
    requirementQuantity: Js,
    usageTotalLimit: Js,
    usageOncePerCustomer: Js,
    startDate: Js,
    endDate: Js,
    quantity: Js,
    percentage: Js)

  /** No combination with order, product or shipping discounts. */
  const NoCombination: Js :=
    Obj(map["orderDiscounts" := Bool(false), "productDiscounts" := Bool(false),
            "shippingDiscounts" := Bool(false)])

  /** The value every field starts from when the volume supplies nothing truthy. */
  function DefaultForm(today: Js): Form
  {
    Form(
      discountTitle := Str(""),
      discountMethod := MethodCode,
      discountCode := Str(""),
      combinesWith := NoCombination,
      requirementType := RequirementNone,
      requirementSubtotal := Str("0"),
      requirementQuantity := Str("0"),
      usageTotalLimit := Null,
      usageOncePerCustomer := Bool(false),
      startDate := today,
      endDate := Null,
      quantity := Str("1"),
      percentage := Str("0"))
  }

  /** A field starts from `fallback` unless `found` is truthy. */
  predicate StartsFrom(field: Js, found: Js, fallback: Js)
  {
    (Truthy(found) ==> field == found) && (!Truthy(found) ==> field == fallback)
  }

  /** The initial form: `volume?.<field> || <default>` for each top-level
      field, and `volume?.configuration.<field> || <default>` for the two
      configuration fields, which raises when a volume is given without a
      configuration. */
  function InitialForm(volume: Js, today: Js): (r: Result<Form>)
    ensures r.Err? <==> !Nullish(volume) && Nullish(OptProp(volume, "configuration"))
    ensures Nullish(volume) ==> r == Ok(DefaultForm(today))
    ensures r.Ok? ==>
      var f := r.value;
      var d := DefaultForm(today);
      var c := OptProp(volume, "configuration");
      && StartsFrom(f.discountTitle, OptProp(volume, "discountTitle"), d.discountTitle)
      && StartsFrom(f.discountMethod, OptProp(volume, "discountMethod"), d.discountMethod)
      && StartsFrom(f.discountCode, OptProp(volume, "discountCode"), d.discountCode)
      && StartsFrom(f.combinesWith, OptProp(volume, "combinesWith"), d.combinesWith)
      && StartsFrom(f.requirementType, OptProp(volume, "requirementType"), d.requirementType)
      && StartsFrom(f.requirementSubtotal, OptProp(volume, "requirementSubtotal"), d.requirementSubtotal)
      && StartsFrom(f.requirementQuantity, OptProp(volume, "requirementQuantity"), d.requirementQuantity)
      && StartsFrom(f.usageTotalLimit, OptProp(volume, "usageTotalLimit"), d.usageTotalLimit)
      && StartsFrom(f.usageOncePerCustomer, OptProp(volume, "usageOncePerCustomer"), d.usageOncePerCustomer)
      && StartsFrom(f.startDate, OptProp(volume, "startDate"), d.startDate)
      && StartsFrom(f.endDate, OptProp(volume, "endDate"), d.endDate)
      && (Nullish(volume) ==> f.quantity == d.quantity && f.percentage == d.percentage)
      && (!Nullish(volume) ==>
            StartsFrom(f.quantity, OptProp(c, "quantity"), d.quantity) &&
            StartsFrom(f.percentage, OptProp(c, "percentage"), d.percentage))
  {
    var d := DefaultForm(today);
    var configuration :=
      if Nullish(volume) then Ok(Undefined) else Prop(Prop(volume, "configuration").value, "quantity");
    if configuration.Err? then Err(configuration.fault)
    else
      var c := OptProp(volume, "configuration");
      Ok(Form(
        discountTitle := Or(OptProp(volume, "discountTitle"), d.discountTitle),
        discountMethod := Or(OptProp(volume, "discountMethod"), d.discountMethod),
        discountCode := Or(OptProp(volume, "discountCode"), d.discountCode),
        combinesWith := Or(OptProp(volume, "combinesWith"), d.combinesWith),
        requirementType := Or(OptProp(volume, "requirementType"), d.requirementType),
        requirementSubtotal := Or(OptProp(volume, "requirementSubtotal"), d.requirementSubtotal),
        requirementQuantity := Or(OptProp(volume, "requirementQuantity"), d.requirementQuantity),
        usageTotalLimit := Or(OptProp(volume, "usageTotalLimit"), d.usageTotalLimit),
        usageOncePerCustomer := Or(OptProp(volume, "usageOncePerCustomer"), d.usageOncePerCustomer),
        startDate := Or(OptProp(volume, "startDate"), d.startDate),
        endDate := Or(OptProp(volume, "endDate"), d.endDate),
        quantity := Or(OptProp(c, "quantity"), d.quantity),
        percentage := Or(OptProp(c, "percentage"), d.percentage)))
  }

  /** `||` replaces every falsy value, not only a missing one: a usage limit
      of 0 starts as `null`, an empty method as the code method and a numeric
      percentage 0 as the string '0', while a quantity given as the string
      '0' is truthy and is kept instead of its default '1'. */
  lemma FalsyFieldsFallBack(volume: map<string, Js>, today: Js)
    requires "configuration" in volume && volume["configuration"] == Obj(map["quantity" := Str("0"), "percentage" := Num(0)])
    requires "usageTotalLimit" in volume && volume["usageTotalLimit"] == Num(0)
    requires "discountMethod" in volume && volume["discountMethod"] == Str("")
    ensures InitialForm(Obj(volume), today).Ok?
    ensures InitialForm(Obj(volume), today).value.usageTotalLimit == Null
    ensures InitialForm(Obj(volume), today).value.discountMethod == MethodCode
    ensures InitialForm(Obj(volume), today).value.quantity == Str("0")
    ensures InitialForm(Obj(volume), today).value.percentage == Str("0")
  {
  }

  /** The route a submission goes to: the update routes when editing, the
      automatic routes exactly for the automatic method; any other method,
      whatever its value, takes the code route. */
  function Endpoint(isEdit: bool, discountMethod: Js): (r: Route)
    ensures IsUpdate(r) <==> isEdit
    ensures IsCodeRoute(r) <==> discountMethod != MethodAutomatic
  {
    if isEdit then
      (if discountMethod == MethodAutomatic then UpdateAutomaticRoute else UpdateCodeRoute)
    else
      (if discountMethod == MethodAutomatic then AutomaticRoute else CodeRoute)
  }

  /** The new metafield a create carries: the fixed namespace and key, type
      `json`, and the configuration serialised from the raw quantity and
      percentage. */
  function ConfigMetafield(form: Form, serialise: (Js, Js) -> string): Js
  {
    Obj(map["namespace" := Str(MetafieldNamespace),
            "key" := Str(MetafieldConfigurationKey),
            "type" := Str("json"),
            "value" := Str(serialise(form.quantity, form.percentage))])
  }

  /** The `discount` object common to all four submissions. */
  function BaseDiscount(form: Form, serialise: (Js, Js) -> string): map<string, Js>
  {
    map["functionId" := Str(FunctionId),
        "combinesWith" := form.combinesWith,
        "startsAt" := form.startDate,
        "endsAt" := form.endDate,
        "metafields" := Arr([ConfigMetafield(form, serialise)])]
  }

  /** A submission: the route posted to and the object handed to `JSON.stringify`. */
  datatype Submission = Submission(route: Route, body: Js)

  /** `onSubmit` up to the fetch: picks the route and builds the body. An edit
      reads `volume.metafieldId` and `volume.id`, which raises on a nullish volume. */
  function BuildRequest(isEdit: bool, volume: Js, form: Form, serialise: (Js, Js) -> string): (r: Result<Submission>)
    ensures r.Err? <==> isEdit && Nullish(volume)
    ensures r.Ok? ==> r.value.route == Endpoint(isEdit, form.discountMethod)
  {
    var discount := BaseDiscount(form, serialise);
    var automatic := form.discountMethod == MethodAutomatic;
    if isEdit then
      match Prop(volume, "metafieldId")
      case Err(f) => Err(f)
      case Ok(metafieldId) =>
        var code := if automatic then map[] else map["code" := form.discountCode];
        var data := discount + map["title" := form.discountTitle] + code
                    + map["metafields" := Arr([Obj(map["id" := metafieldId])])];
        Ok(Submission(Endpoint(isEdit, form.discountMethod),
                      Obj(map["data" := Obj(data), "id" := Prop(volume, "id").value])))
    else if automatic then
      Ok(Submission(AutomaticRoute, Obj(discount + map["title" := form.discountTitle])))
    else
      Ok(Submission(CodeRoute, Obj(discount + map["title" := form.discountCode, "code" := form.discountCode])))
  }

  /** The discount input a submission carries: the body itself for a create,
      its `data` member for an update. */
  function DiscountInput(s: Submission): Js
  {
    if IsUpdate(s.route) && s.body.Obj? && "data" in s.body.fields then s.body.fields["data"]
    else s.body
  }

  /** The members every submission's discount input has; nothing about usage
      limits or minimum requirements is ever sent. */
  const CommonKeys: set<string> := {"functionId", "combinesWith", "startsAt", "endsAt", "metafields", "title"}

  /** What every submission carries: the function id, the combinations and
      the dates copied from the form, one metafield, a title, and a `code`
      member exactly when the method is not automatic. */
  lemma SubmissionPayload(isEdit: bool, volume: Js, form: Form, serialise: (Js, Js) -> string)
    requires BuildRequest(isEdit, volume, form, serialise).Ok?
    ensures
      var s := BuildRequest(isEdit, volume, form, serialise).value;
      var input := DiscountInput(s);
      var automatic := form.discountMethod == MethodAutomatic;
      && input.Obj?
      && input.fields.Keys == CommonKeys + (if automatic then {} else {"code"})
      && input.fields["functionId"] == Str(FunctionId)
      && input.fields["combinesWith"] == form.combinesWith
      && input.fields["startsAt"] == form.startDate
      && input.fields["endsAt"] == form.endDate
      && (!automatic ==> input.fields["code"] == form.discountCode)
      && input.fields["title"] == (if !isEdit && !automatic then form.discountCode else form.discountTitle)
      && input.fields["metafields"].Arr? && |input.fields["metafields"].items| == 1
  {
    if isEdit {
      EditInput(volume, form, serialise);
      InputFromParts(form, serialise, form.discountTitle, Arr([Obj(map["id" := OptProp(volume, "metafieldId")])]));
    } else {
      CreateInput(volume, form, serialise);
      var title := if form.discountMethod == MethodAutomatic then form.discountTitle else form.discountCode;
      InputFromParts(form, serialise, title, Arr([ConfigMetafield(form, serialise)]));
    }
  }

  /** The discount input assembled from the base members, a title, the code
      member when the method is not automatic, and the metafield list. */
  function Parts(form: Form, serialise: (Js, Js) -> string, title: Js, metafields: Js): map<string, Js>
  {
    var code: map<string, Js> :=
      if form.discountMethod == MethodAutomatic then map[] else map["code" := form.discountCode];
    BaseDiscount(form, serialise) + map["title" := title] + code + map["metafields" := metafields]
  }

  /** An update's discount input is assembled from the parts, with the title
      field and a reference to the existing metafield. */
  lemma EditInput(volume: Js, form: Form, serialise: (Js, Js) -> string)
    requires !Nullish(volume)
    ensures DiscountInput(BuildRequest(true, volume, form, serialise).value) ==
      Obj(Parts(form, serialise, form.discountTitle, Arr([Obj(map["id" := OptProp(volume, "metafieldId")])])))
  {
  }

  /** A create's discount input is assembled from the parts, with the code as
      title for a code discount and the new configuration metafield. */
  lemma CreateInput(volume: Js, form: Form, serialise: (Js, Js) -> string)
    ensures
      var title := if form.discountMethod == MethodAutomatic then form.discountTitle else form.discountCode;
      DiscountInput(BuildRequest(false, volume, form, serialise).value) ==
        Obj(Parts(form, serialise, title, Arr([ConfigMetafield(form, serialise)])))
  {
    var discount := BaseDiscount(form, serialise);
    if form.discountMethod == MethodAutomatic {
      var m := discount + map["title" := form.discountTitle];
      assert m == m + map[];
      OverrideWithSame(m, "metafields");
    } else {
      var m := discount + map["title" := form.discountCode] + map["code" := form.discountCode];
      assert m == discount + map["title" := form.discountCode, "code" := form.discountCode];
      OverrideWithSame(m, "metafields");
    }
  }

  /** Overriding a key with the value it already has changes nothing. */
  lemma OverrideWithSame(m: map<string, Js>, k: string)
    requires k in m
    ensures m + map[k := m[k]] == m
  {
  }

  /** The members of a discount input assembled from the parts. */
  lemma InputFromParts(form: Form, serialise: (Js, Js) -> string, title: Js, metafields: Js)
    requires metafields.Arr? && |metafields.items| == 1
    ensures
      var automatic := form.discountMethod == MethodAutomatic;
      var input := Parts(form, serialise, title, metafields);
      && input.Keys == CommonKeys + (if automatic then {} else {"code"})
      && input["functionId"] == Str(FunctionId)
      && input["combinesWith"] == form.combinesWith
      && input["startsAt"] == form.startDate
      && input["endsAt"] == form.endDate
      && (!automatic ==> input["code"] == form.discountCode)
      && input["title"] == title
      && input["metafields"] == metafields
  {
    var base := BaseDiscount(form, serialise);
    assert base.Keys == {"functionId", "combinesWith", "startsAt", "endsAt", "metafields"};
    assert (base + map["title" := title]).Keys == CommonKeys;
  }

  /** A create allocates exactly one new metafield in the fixed namespace and
      key, typed `json`, holding the serialised configuration. */
  lemma CreateAllocatesMetafield(volume: Js, form: Form, serialise: (Js, Js) -> string)
    ensures BuildRequest(false, volume, form, serialise).Ok?
    ensures
      var s := BuildRequest(false, volume, form, serialise).value;
      && !IsUpdate(s.route)
      && s.body.Obj? && "id" !in s.body.fields
      && s.body.fields["metafields"] == Arr([ConfigMetafield(form, serialise)])
      && ConfigMetafield(form, serialise).fields["namespace"] == Str("discount-tutorial")
      && ConfigMetafield(form, serialise).fields["key"] == Str("volume-config")
      && ConfigMetafield(form, serialise).fields["type"] == Str("json")
      && ConfigMetafield(form, serialise).fields["value"] == Str(serialise(form.quantity, form.percentage))
  {
  }

  /** An update is `{data, id: volume.id}` whose metafields are replaced by
      the bare reference `[{id: volume.metafieldId}]`: no metafield is
      allocated and the edited configuration is not sent. */
  lemma UpdateReferencesMetafield(volume: Js, form: Form, serialise: (Js, Js) -> string)
    requires !Nullish(volume)
    ensures BuildRequest(true, volume, form, serialise).Ok?
    ensures
      var s := BuildRequest(true, volume, form, serialise).value;
      && IsUpdate(s.route)
      && s.body.Obj? && s.body.fields.Keys == {"data", "id"}
      && s.body.fields["id"] == OptProp(volume, "id")
      && DiscountInput(s).fields["metafields"] == Arr([Obj(map["id" := OptProp(volume, "metafieldId")])])
  {
  }

  /** An update's body does not depend on the configuration fields or on
      how they would be serialised. */
  lemma UpdateIgnoresConfiguration(volume: Js, form: Form, quantity: Js, percentage: Js,
                                   serialise: (Js, Js) -> string, other: (Js, Js) -> string)
    requires !Nullish(volume)
    ensures BuildRequest(true, volume, form, serialise) ==
            BuildRequest(true, volume, form.(quantity := quantity, percentage := percentage), other)
  {
    var edited := form.(quantity := quantity, percentage := percentage);
    var reference := map["metafields" := Arr([Obj(map["id" := OptProp(volume, "metafieldId")])])];
    var code := if form.discountMethod == MethodAutomatic then map[] else map["code" := form.discountCode];
    var title := map["title" := form.discountTitle];
    assert BaseDiscount(form, serialise) + title + code + reference ==
           BaseDiscount(edited, other) + title + code + reference;
  }

  /** Editing with a `null` volume (the edit page's answer while the lookup
      is pending) keeps `isEdit` set, so the submission raises. */
  lemma NullVolumeSubmissionRaises(form: Form, serialise: (Js, Js) -> string)
    ensures IsEdit(Null)
    ensures BuildRequest(IsEdit(Null), Null, form, serialise) == Err(TypeError)
  {
  }

  /** What `onSubmit` returns: `{status: 'fail', errors}` or `{status: 'success'}`. */
  datatype Status = Fail(errors: seq<Js>) | Success

  /** The returned status and whether the redirect to the discount list was dispatched. */
  datatype Outcome = Outcome(status: Status, redirected: bool)

  /** The result decision: failure carrying the user errors unchanged exactly
      when there are any; otherwise the redirect is dispatched and the
      submission succeeds. */
  function Decide(userErrors: seq<Js>): (o: Outcome)
    ensures o.status.Fail? <==> |userErrors| > 0
    ensures o.status.Fail? ==> o.status.errors == userErrors
    ensures o.redirected <==> o.status.Success?
  {
    if |userErrors| > 0 then Outcome(Fail(userErrors), false)
    else Outcome(Success, true)
  }
}
