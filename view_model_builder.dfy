/**
 * The view-model builder (`visualTransform`): turns one host update into the
 * flat settings the slicer renders with, falling back to a fixed default record
 * when there is no category data or when reading a setting throws.
 */
module ViewModelBuilder {
  import opened Wrappers
  import opened JsValues
  import opened HostData
  import opened ObjectEnumerationUtility

  /**
   * The slicer's view model. The settings are kept as the values the resolver
   * returned: the source's type casts are not checked at run time.
   */
  datatype ViewModel = ViewModel(
    vertical: Value,
    defaultId: Value,
    numberCats: nat,
    fontSize: Value,
    fontFamily: Value,
    fontColor: Value,
    backgroundColor: Value)

  /** The record returned when there is no category data or a setting cannot be read. */
  const DefaultViewModel := ViewModel(Bool(true), Num(0), 0, Num(12), Str("Arial"), Str("blue"), Str("white"))

  /** `dataViews[0]`, when the update carries one. */
  function FirstDataView(options: UpdateOptions): Option<DataView> {
    match options.dataViews
    case None => None
    case Some(views) => if |views| == 0 then None else views[0]
  }

  /** `dataViews[0].categorical.categories[0]`, when every level of it is there. */
  function FirstCategory(options: UpdateOptions): (c: Option<CategoryColumn>)
    ensures c.Some? ==> FirstDataView(options).Some?
  {
    match FirstDataView(options)
    case None => None
    case Some(view) =>
      match view.categorical
      case None => None
      case Some(categorical) =>
        match categorical.categories
        case None => None
        case Some(columns) => if |columns| == 0 then None else columns[0]
  }

  /**
   * The values the seven settings resolve to when the update has category data:
   * each comes from the resolver with the default record's value as its default.
   */
  ghost predicate ResolvedFrom(vm: ViewModel, view: DataView, numberCats: nat)
    requires view.metadata.Some?
  {
    var objects := view.metadata.value.objects;
    && vm.vertical == GetValue(objects, "labels", "vertical", DefaultViewModel.vertical)
    && vm.defaultId == GetValue(objects, "defaults", "defaultId", DefaultViewModel.defaultId)
    && vm.numberCats == numberCats
    && vm.fontSize == GetValue(objects, "labels", "fontSize", DefaultViewModel.fontSize)
    && vm.fontFamily == GetValue(objects, "labels", "fontFamily", DefaultViewModel.fontFamily)
    && GetFill(Some(view), "labels", "fontColor", DefaultViewModel.fontColor.s) == Ok(vm.fontColor)
    && GetFill(Some(view), "labels", "backgroundColor", DefaultViewModel.backgroundColor.s) == Ok(vm.backgroundColor)
  }

  /** Reading the two colour settings throws. */
  predicate ResolutionThrows(objects: Option<DataViewObjects>) {
    FillThrows(objects, "labels", "fontColor") || FillThrows(objects, "labels", "backgroundColor")
  }

  /** The body of the `try` block: the record literal, which throws when a colour read throws. */
  function Resolve(view: DataView, numCats: nat): Result<ViewModel, JsError>
    requires view.metadata.Some?
  {
    var objects := view.metadata.value.objects;
    var vertical := GetValue(objects, "labels", "vertical", Bool(true));
    var defaultId := GetValue(objects, "defaults", "defaultId", Num(0));
    var fontSize := GetValue(objects, "labels", "fontSize", Num(12));
    var fontFamily := GetValue(objects, "labels", "fontFamily", Str("Arial"));
    var fontColor := GetFill(Some(view), "labels", "fontColor", "blue");
    var backgroundColor := GetFill(Some(view), "labels", "backgroundColor", "white");
    if fontColor.Err? then Err(fontColor.error)
    else if backgroundColor.Err? then Err(backgroundColor.error)
    else Ok(ViewModel(vertical, defaultId, numCats, fontSize, fontFamily, fontColor.value, backgroundColor.value))
  }

  /**
   * `visualTransform`. Without category data the result is the default record.
   * Otherwise reading `dataViews[0].metadata.objects` happens outside the
   * `try`, so a missing metadata throws out of the transform; inside the `try`
   * the result is either every setting resolved, with `numberCats` the number
   * of category values, or, when a colour read throws, the whole default record.
   */
  function VisualTransform(options: UpdateOptions): (r: Result<ViewModel, JsError>)
    ensures FirstCategory(options).None? ==> r == Ok(DefaultViewModel)
    ensures FirstCategory(options).Some? ==>
              var view := FirstDataView(options).value;
              var numberCats := |FirstCategory(options).value.values|;
              && (r.Err? <==> view.metadata.None?)
              && (view.metadata.Some? && ResolutionThrows(view.metadata.value.objects) ==> r == Ok(DefaultViewModel))
              && (view.metadata.Some? && !ResolutionThrows(view.metadata.value.objects) ==> r.Ok? && ResolvedFrom(r.value, view, numberCats))
  {
    match FirstCategory(options)
    case None => Ok(DefaultViewModel)
    case Some(category) =>
      var numCats := |category.values|;
      var view := FirstDataView(options).value;
      match view.metadata
      case None => Err(TypeError("objects"))
      case Some(_) =>
        match Resolve(view, numCats)
        case Ok(style) => Ok(style)
        case Err(_) => Ok(DefaultViewModel)
  }

  /**
   * All or nothing: a transform that returns has either resolved every setting
   * or returned the whole default record, and with category values present the
   * fallback reports no categories at all.
   */
  lemma TransformIsAllOrNothing(options: UpdateOptions)
    requires FirstCategory(options).Some? && VisualTransform(options).Ok?
    ensures var view := FirstDataView(options).value;
            var vm := VisualTransform(options).value;
            || vm == DefaultViewModel
            || (view.metadata.Some? && ResolvedFrom(vm, view, |FirstCategory(options).value.values|))
    ensures var vm := VisualTransform(options).value;
            vm.numberCats != |FirstCategory(options).value.values| ==> vm == DefaultViewModel
  {
  }

  /**
   * With category data but no settings at all, every setting takes the default
   * record's value and only `numberCats` differs from it.
   */
  lemma NoSettingsGivesDefaults(options: UpdateOptions)
    requires FirstCategory(options).Some?
    requires FirstDataView(options).value.metadata == Some(Metadata(None))
    ensures VisualTransform(options) == Ok(DefaultViewModel.(numberCats := |FirstCategory(options).value.values|))
  {
  }

  /** With no data views at all the transform returns the default record. */
  lemma NoDataViewsGivesDefaults()
    ensures VisualTransform(UpdateOptions(None)) == Ok(DefaultViewModel)
    ensures VisualTransform(UpdateOptions(Some([]))) == Ok(DefaultViewModel)
  {
  }

  /** An update with category values `values` and settings `objects` on its first data view. */
  function UpdateWith(values: seq<int>, objects: DataViewObjects): UpdateOptions {
    var column := CategoryColumn(values, None);
    var view := DataView(Some(Metadata(Some(objects))), Some(Categorical(Some([Some(column)]))));
    UpdateOptions(Some([Some(view)]))
  }

  /** Five categories and `labels.fontSize = 20`, no `defaults` object: only the size and the count change. */
  lemma ScenarioFontSize()
    ensures VisualTransform(UpdateWith([1, 2, 3, 4, 5], map["labels" := map["fontSize" := Num(20)]]))
            == Ok(DefaultViewModel.(numberCats := 5, fontSize := Num(20)))
  {
  }

  /**
   * `labels.fontSize = null` with `defaults.defaultId = 1`: the transform keeps
   * the `null`, since only `undefined` is replaced by the default.
   */
  lemma ScenarioNullFontSize(values: seq<int>)
    ensures VisualTransform(UpdateWith(values, map["defaults" := map["defaultId" := Num(1)], "labels" := map["fontSize" := Null]]))
            == Ok(DefaultViewModel.(numberCats := |values|, defaultId := Num(1), fontSize := Null))
  {
  }

  /** Only `defaults.defaultId = d` set: the id is taken verbatim, with no range check, and the rest is default. */
  lemma DefaultIdSetting(values: seq<int>, d: int)
    ensures VisualTransform(UpdateWith(values, map["defaults" := map["defaultId" := Num(d)]]))
            == Ok(DefaultViewModel.(numberCats := |values|, defaultId := Num(d)))
  {
  }

  /** `labels.fontColor = {solid: {color: "#FF0000"}}` gives that colour. */
  lemma ScenarioFontColor(values: seq<int>)
    ensures var fill := Obj(map["solid" := Obj(map["color" := Str("#FF0000")])]);
            var r := VisualTransform(UpdateWith(values, map["labels" := map["fontColor" := fill]]));
            r.Ok? && r.value.fontColor == Str("#FF0000")
  {
    var fill := Obj(map["solid" := Obj(map["color" := Str("#FF0000")])]);
    var options := UpdateWith(values, map["labels" := map["fontColor" := fill]]);
    var objects := Some(map["labels" := map["fontColor" := fill]]);
    assert GetValue(objects, "labels", "fontColor", Undefined) == fill;
    assert GetValue(objects, "labels", "backgroundColor", Undefined) == Undefined;
    assert !ResolutionThrows(objects);
    assert ["solid", "color"][1..] == ["color"] && ["color"][1..] == [];
    assert OptionalChain(fill, ["solid", "color"]) == Str("#FF0000");
  }

  /** A `null` font colour throws inside the `try`: the whole default record comes back. */
  lemma ScenarioNullFill(values: seq<int>)
    ensures VisualTransform(UpdateWith(values, map["labels" := map["fontColor" := Null, "fontSize" := Num(20)]]))
            == Ok(DefaultViewModel)
  {
  }
}
