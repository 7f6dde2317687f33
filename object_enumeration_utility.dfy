/**
 * The settings resolver: defaulted lookups in the user's settings, which the
 * host may leave absent at any level. The lookups are functions of values, so
 * none of them can change the settings it reads.
 */
module ObjectEnumerationUtility {
  import opened Wrappers
  import opened JsValues
  import opened HostData

  /** The settings as the JavaScript value they are: objects of objects, or `undefined`. */
  function SettingsValue(objects: Option<DataViewObjects>): Value {
    match objects
    case None => Undefined
    case Some(m) => Obj(map name | name in m :: Obj(m[name]))
  }

  /**
   * `getValue`: `objects[objectName][propertyName]` when the settings, the
   * object and a defined property are all there, and `defaultValue` otherwise.
   * The value found is returned as it is, `null` included.
   */
  function GetValue(objects: Option<DataViewObjects>, objectName: string, propertyName: string, defaultValue: Value): (r: Value)
    ensures objects.None? ==> r == defaultValue
    ensures objects.Some? && objectName !in objects.value ==> r == defaultValue
    ensures objects.Some? && objectName in objects.value && propertyName !in objects.value[objectName] ==> r == defaultValue
    ensures objects.Some? && objectName in objects.value && propertyName in objects.value[objectName] ==>
              r == DefinedOr(objects.value[objectName][propertyName], defaultValue)
  {
    if objects.Some? && objectName in objects.value then
      var settingsObject := objects.value[objectName];
      var property := if propertyName in settingsObject then settingsObject[propertyName] else Undefined;
      if property != Undefined then property else defaultValue
    else
      defaultValue
  }

  /** `getValue` is the optional chain `objects?.[objectName]?.[propertyName]`, defaulted when undefined. */
  lemma GetValueIsOptionalChain(objects: Option<DataViewObjects>, objectName: string, propertyName: string, defaultValue: Value)
    ensures GetValue(objects, objectName, propertyName, defaultValue)
            == DefinedOr(OptionalChain(SettingsValue(objects), [objectName, propertyName]), defaultValue)
  {
    var path := [objectName, propertyName];
    assert path[1..] == [propertyName] && path[1..][1..] == [];
    match objects
    case None =>
    case Some(m) =>
      var root := SettingsValue(objects);
      var settingsObject := Member(root, objectName).value;
      assert OptionalChain(root, path) == OptionalChain(settingsObject, [propertyName]);
      if objectName in m {
        assert settingsObject == Obj(m[objectName]);
        var property := Member(settingsObject, propertyName).value;
        assert OptionalChain(settingsObject, [propertyName]) == OptionalChain(property, []) == property;
      } else {
        assert settingsObject == Undefined;
      }
  }

  /**
   * The raw fill under `objectName.propertyName` throws when it is read through:
   * `fill.solid` on a `null` fill, or `fill.solid.color` on a `null` solid.
   */
  predicate FillThrows(objects: Option<DataViewObjects>, objectName: string, propertyName: string) {
    var fill := GetValue(objects, objectName, propertyName, Undefined);
    fill.Null? || (fill.Obj? && Member(fill, "solid") == Ok(Null))
  }

  /**
   * `getFill`: the colour `fill.solid.color` of a fill setting, or
   * `defaultValue` when the data view, the settings, the object, the fill, its
   * solid or its colour is undefined. A `null` fill or solid passes the
   * `!== undefined` test and the next read throws; a data view without
   * metadata throws too.
   */
  function GetFill(dataView: Option<DataView>, objectName: string, propertyName: string, defaultValue: string): (r: Result<Value, JsError>)
    ensures dataView.None? ==> r == Ok(Str(defaultValue))
    ensures dataView.Some? && dataView.value.metadata.None? ==> r.Err?
    ensures dataView.Some? && dataView.value.metadata.Some? ==>
              var objects := dataView.value.metadata.value.objects;
              && (r.Err? <==> FillThrows(objects, objectName, propertyName))
              && (r.Ok? ==> r.value == DefinedOr(OptionalChain(GetValue(objects, objectName, propertyName, Undefined), ["solid", "color"]), Str(defaultValue)))
  {
    if dataView.None? then Ok(Str(defaultValue))
    else match dataView.value.metadata
      case None => Err(TypeError("objects"))
      case Some(metadata) =>
        if metadata.objects.Some? && objectName in metadata.objects.value then
          var config := metadata.objects.value[objectName];
          var fill := if propertyName in config then config[propertyName] else Undefined;
          if fill == Undefined then Ok(Str(defaultValue))
          else match Member(fill, "solid")
            case Err(e) => Err(e)
            case Ok(solid) =>
              if solid == Undefined then Ok(Str(defaultValue))
              else match Member(solid, "color")
                case Err(e) => Err(e)
                case Ok(color) => if color == Undefined then Ok(Str(defaultValue)) else Ok(color)
        else
          Ok(Str(defaultValue))
  }

  /** The settings of row `index` of a category column, when the column has per-row settings and that row has some. */
  function RowObjects(category: CategoryColumn, index: int): Option<DataViewObjects> {
    match category.objects
    case None => None
    case Some(rows) => if 0 <= index < |rows| then rows[index] else None
  }

  /**
   * `getCategoricalObjectValue`: `category.objects[index][objectName][propertyName]`
   * when every level is there and the property is defined, `defaultValue` otherwise.
   */
  function GetCategoricalObjectValue(category: CategoryColumn, index: int, objectName: string, propertyName: string, defaultValue: Value): (r: Value)
    ensures r == GetValue(RowObjects(category, index), objectName, propertyName, defaultValue)
    ensures category.objects.None? || index < 0 || index >= |category.objects.value| ==> r == defaultValue
    ensures category.objects.Some? && 0 <= index < |category.objects.value| && category.objects.value[index].None? ==> r == defaultValue
  {
    var categoryObjects := category.objects;
    if categoryObjects.Some? && 0 <= index < |categoryObjects.value| && categoryObjects.value[index].Some? then
      var categoryObject := categoryObjects.value[index].value;
      if objectName in categoryObject then
        var settingsObject := categoryObject[objectName];
        var property := if propertyName in settingsObject then settingsObject[propertyName] else Undefined;
        if property != Undefined then property else defaultValue
      else
        defaultValue
    else
      defaultValue
  }
}
