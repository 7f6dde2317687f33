/**
 * What the slicer reports to the host's format pane (`enumerateObjectInstances`):
 * the `defaults` object with its id corrected against the category count, and
 * the `labels` object verbatim.
 */
module FormatPane {
  import opened Wrappers
  import opened JsValues
  import opened ViewModelBuilder

  datatype NumberRange = NumberRange(min: int, max: int)

  /** One VisualObjectInstance; its selector is always `null` and is not modelled. */
  datatype ObjectInstance = ObjectInstance(
    objectName: string,
    properties: map<string, Value>,
    validValues: map<string, NumberRange>)

  /**
   * The default id shown in the format pane: the stored one unless it is
   * greater than the number of categories, in which case 0. Only the upper
   * bound is corrected: a negative id is shown as it is.
   */
  function ReportedDefaultId(vm: ViewModel): (id: Value)
    ensures !GreaterThanNumber(id, vm.numberCats)
    ensures !GreaterThanNumber(vm.defaultId, vm.numberCats) ==> id == vm.defaultId
    ensures id != vm.defaultId ==> id == Num(0)
    ensures vm.defaultId.Num? && vm.defaultId.n >= 0 ==> id.Num? && 0 <= id.n <= vm.numberCats
    ensures vm.defaultId.Num? && vm.defaultId.n < 0 ==> id == vm.defaultId
  {
    if GreaterThanNumber(vm.defaultId, vm.numberCats) then Num(0) else vm.defaultId
  }

  /** The instances listed for the format-pane object `objectName`. */
  function Enumerate(vm: ViewModel, objectName: string): (r: seq<ObjectInstance>)
    ensures objectName != "defaults" && objectName != "labels" ==> r == []
    ensures objectName == "defaults" ==>
              && |r| == 1 && r[0].objectName == objectName
              && r[0].properties.Keys == {"defaultId"}
              && r[0].validValues == map["defaultId" := NumberRange(0, vm.numberCats)]
              && r[0].properties["defaultId"] == ReportedDefaultId(vm)
              && !GreaterThanNumber(r[0].properties["defaultId"], r[0].validValues["defaultId"].max)
    ensures objectName == "labels" ==>
              && |r| == 1 && r[0].objectName == objectName
              && r[0].properties.Keys == {"vertical", "backgroundColor", "fontSize", "fontFamily", "fontColor"}
              && r[0].properties["vertical"] == vm.vertical
              && r[0].properties["backgroundColor"] == vm.backgroundColor
              && r[0].properties["fontSize"] == vm.fontSize
              && r[0].properties["fontFamily"] == vm.fontFamily
              && r[0].properties["fontColor"] == vm.fontColor
              && r[0].validValues == map[]
  {
    if objectName == "defaults" then
      [ObjectInstance(objectName,
                      map["defaultId" := ReportedDefaultId(vm)],
                      map["defaultId" := NumberRange(0, vm.numberCats)])]
    else if objectName == "labels" then
      [ObjectInstance(objectName,
                      map["vertical" := vm.vertical,
                          "backgroundColor" := vm.backgroundColor,
                          "fontSize" := vm.fontSize,
                          "fontFamily" := vm.fontFamily,
                          "fontColor" := vm.fontColor],
                      map[])]
    else
      []
  }

  /**
   * `defaults.defaultId = 10` with three categories: the view model keeps 10,
   * and the format pane shows 0.
   */
  lemma ScenarioDefaultIdOutOfRange()
    ensures var vm := VisualTransform(UpdateWith([1, 2, 3], map["defaults" := map["defaultId" := Num(10)]]));
            && vm.Ok? && vm.value.defaultId == Num(10) && vm.value.numberCats == 3
            && Enumerate(vm.value, "defaults")[0].properties["defaultId"] == Num(0)
  {
  }
}
