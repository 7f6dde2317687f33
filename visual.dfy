/**
 * The slicer object the host drives: `update` rebuilds the view model and
 * re-renders unless the update was caused by the slicer's own click, a click
 * records that and asks the host to select its row, and an enumeration for the
 * format pane clears the flag again.
 */
module Visuals {
  import opened Wrappers
  import opened JsValues
  import opened HostData
  import opened ViewModelBuilder
  import opened FormatPane
  import opened Rendering

  class Visual {
    /** `flexiSlicerViewModel`: undefined until the first update. */
    var viewModel: Option<ViewModel>
    /** Set by a click, checked by `update`, cleared by enumeration. */
    var isEventUpdate: bool
    /** What the target element shows after the last render. */
    var rendered: seq<RenderItem>
    /**
     * `selectionIds`: category value to the row its selection id was built
     * from. JavaScript keys the object by `item.toString()`; keying by the
     * integer loses nothing (`JsValues.NumberToStringInjective`).
     */
    var selectionIds: map<int, nat>
    /** `lastSelectedValue`: the row of the last radio rendered checked, if there ever was one. */
    var lastSelected: Option<nat>
    /** The rows whose selection ids were handed to the host's `select`, in order; `None` for `undefined`. */
    var selectRequests: seq<Option<nat>>

    /**
     * The selection ids are those of the rendered items. A render that threw
     * leaves nothing shown but keeps the ids built before the throw.
     */
    ghost predicate Valid()
      reads this
    {
      rendered == [] || selectionIds == SelectionIds(ItemValues(rendered))
    }

    constructor ()
      ensures Valid()
      ensures viewModel == None && !isEventUpdate && rendered == [] && selectionIds == map[]
      ensures lastSelected == None && selectRequests == []
    {
      viewModel := None;
      isEventUpdate := false;
      rendered := [];
      selectionIds := map[];
      lastSelected := None;
      selectRequests := [];
    }

    /**
     * `init`: without category data nothing changes. Otherwise the old items
     * and selection ids are dropped and one item per category value is
     * rendered; `lastSelected` moves to the checked row, and stays as it was
     * when no row is checked. A `fontSize` of `null` or `undefined` makes the
     * first label's `fontSize.toString()` throw: the first row's id and check
     * have been recorded by then, and nothing is shown.
     */
    method Init(options: UpdateOptions) returns (thrown: bool)
      requires Valid() && viewModel.Some?
      modifies this
      ensures Valid()
      ensures viewModel == old(viewModel) && isEventUpdate == old(isEventUpdate) && selectRequests == old(selectRequests)
      ensures FirstCategory(options).None? ==>
                !thrown && rendered == old(rendered) && selectionIds == old(selectionIds) && lastSelected == old(lastSelected)
      ensures FirstCategory(options).Some? ==>
                var values := FirstCategory(options).value.values;
                var vm := viewModel.value;
                && (thrown <==> |values| > 0 && ToStringThrows(vm.fontSize))
                && (thrown ==>
                      && rendered == [] && selectionIds == SelectionIds(values[..1])
                      && lastSelected == LastSelectedAfter(vm.defaultId, |values|, 1, old(lastSelected)))
                && (!thrown ==>
                      && rendered == RenderPlan(values, vm) && selectionIds == SelectionIds(values)
                      && lastSelected == LastSelectedAfter(vm.defaultId, |values|, |values|, old(lastSelected)))
    {
      thrown := false;
      var category := FirstCategory(options);
      if category.None? {
        return;
      }
      var vm := viewModel.value;
      var values := category.value.values;
      var labelThrows := ToStringThrows(vm.fontSize);
      rendered := [];
      selectionIds := map[];
      var scroller: seq<RenderItem> := [];
      var itemctr := 0;
      while itemctr < |values|
        invariant 0 <= itemctr <= |values|
        invariant viewModel == old(viewModel) && isEventUpdate == old(isEventUpdate) && selectRequests == old(selectRequests)
        invariant rendered == [] && (labelThrows ==> itemctr == 0)
        invariant |scroller| == itemctr
        invariant forall i :: 0 <= i < itemctr ==> scroller[i] == RenderItemAt(values, vm, i)
        invariant selectionIds == SelectionIds(values[..itemctr])
        invariant lastSelected == LastSelectedAfter(vm.defaultId, |values|, itemctr, old(lastSelected))
      {
        var index := itemctr;
        itemctr := itemctr + 1;
        var item := values[index];
        SelectionIdsStep(values, index);
        selectionIds := selectionIds[item := index];
        var checked := LooseEqualsNumber(vm.defaultId, itemctr);
        LastSelectedStep(vm.defaultId, |values|, index, lastSelected, old(lastSelected));
        if checked {
          lastSelected := Some(selectionIds[item]);
        }
        if labelThrows {
          assert index == 0 && values[..itemctr] == values[..1];
          return true;
        }
        var breakAfter := LooseEqualsTrue(vm.vertical) && itemctr < |values|;
        scroller := scroller + [RenderItem(item, checked, breakAfter)];
      }
      rendered := scroller;
      assert values[..|values|] == values;
      assert rendered == RenderPlan(values, vm);
      assert ItemValues(rendered) == values;
    }

    /**
     * `update`: reading the settings may throw, and then nothing changes.
     * Otherwise the new view model is stored; unless the update follows a
     * click, the slicer re-renders and, when `defaultId > 0`, hands the host
     * `lastSelected` again, which is a row of an earlier render when no row is
     * checked now. A render that throws passes the error on before anything is
     * handed to the host.
     */
    method Update(options: UpdateOptions) returns (thrown: bool)
      requires Valid()
      modifies this
      ensures Valid()
      ensures VisualTransform(options).Err? ==> thrown && unchanged(this)
      ensures VisualTransform(options).Ok? ==>
                viewModel == Some(VisualTransform(options).value) && isEventUpdate == old(isEventUpdate)
      ensures VisualTransform(options).Ok? && old(isEventUpdate) ==>
                && !thrown && rendered == old(rendered) && selectionIds == old(selectionIds)
                && lastSelected == old(lastSelected) && selectRequests == old(selectRequests)
      ensures VisualTransform(options).Ok? && !old(isEventUpdate) ==>
                var vm := VisualTransform(options).value;
                && (FirstCategory(options).None? ==>
                      && !thrown && rendered == old(rendered) && selectionIds == old(selectionIds)
                      && lastSelected == old(lastSelected) && selectRequests == old(selectRequests))
                && (FirstCategory(options).Some? ==>
                      var values := FirstCategory(options).value.values;
                      && (thrown <==> |values| > 0 && ToStringThrows(vm.fontSize))
                      && (thrown ==>
                            && rendered == [] && selectionIds == SelectionIds(values[..1])
                            && lastSelected == LastSelectedAfter(vm.defaultId, |values|, 1, old(lastSelected))
                            && selectRequests == old(selectRequests))
                      && (!thrown ==>
                            && rendered == RenderPlan(values, vm) && selectionIds == SelectionIds(values)
                            && lastSelected == LastSelectedAfter(vm.defaultId, |values|, |values|, old(lastSelected))
                            && selectRequests == old(selectRequests) + (if GreaterThanNumber(vm.defaultId, 0) then [lastSelected] else [])))
    {
      var transformed := VisualTransform(options);
      if transformed.Err? {
        return true;
      }
      thrown := false;
      viewModel := Some(transformed.value);
      if !isEventUpdate {
        thrown := Init(options);
        if thrown {
          return;
        }
        if GreaterThanNumber(viewModel.value.defaultId, 0) {
          selectRequests := selectRequests + [lastSelected];
        }
      }
    }

    /**
     * A click on the radio of row `row`: marks the next update as caused by
     * the slicer and hands the host the selection id stored under the radio's
     * value, which is the one built for the last row with that value.
     */
    method OnClick(row: nat)
      requires Valid() && row < |rendered|
      modifies this`isEventUpdate, this`selectRequests
      ensures Valid() && isEventUpdate
      ensures var item := rendered[row].value;
              && item in selectionIds
              && selectRequests == old(selectRequests) + [Some(selectionIds[item])]
              && row <= selectionIds[item] < |rendered|
              && rendered[selectionIds[item]].value == item
              && forall j :: selectionIds[item] < j < |rendered| ==> rendered[j].value != item
    {
      isEventUpdate := true;
      var item := rendered[row].value;
      assert ItemValues(rendered)[row] == item && item in ItemValues(rendered);
      SelectionIdsPointToLastRow(ItemValues(rendered));
      selectRequests := selectRequests + [Some(selectionIds[item])];
    }

    /**
     * `enumerateObjectInstances`: the format-pane instances for `objectName`,
     * after which the flag is cleared. Before the first update there is no view
     * model, and asking for `defaults` or `labels` throws before the flag is
     * cleared.
     */
    method EnumerateObjectInstances(objectName: string) returns (r: Result<seq<ObjectInstance>, JsError>)
      modifies this`isEventUpdate
      ensures viewModel.Some? ==> r == Ok(Enumerate(viewModel.value, objectName)) && !isEventUpdate
      ensures viewModel.None? && (objectName == "defaults" || objectName == "labels") ==>
                r.Err? && isEventUpdate == old(isEventUpdate)
      ensures viewModel.None? && objectName != "defaults" && objectName != "labels" ==>
                r == Ok([]) && !isEventUpdate
    {
      if viewModel.None? {
        if objectName == "defaults" {
          return Err(TypeError("defaultId"));
        } else if objectName == "labels" {
          return Err(TypeError("vertical"));
        }
        r := Ok([]);
      } else {
        r := Ok(Enumerate(viewModel.value, objectName));
      }
      isEventUpdate := false;
    }
  }

  /**
   * The click protocol: after a click, an update stores the new view model
   * but does not re-render, until an enumeration clears the flag.
   */
  method ClickSuppressesRerender(first: UpdateOptions, second: UpdateOptions)
    requires FirstCategory(first).Some? && |FirstCategory(first).value.values| > 0
    requires VisualTransform(first).Ok? && VisualTransform(second).Ok?
    requires !ToStringThrows(VisualTransform(first).value.fontSize)
  {
    var v := new Visual();
    var thrown := v.Update(first);
    var shown := v.rendered;
    v.OnClick(0);
    thrown := v.Update(second);
    assert v.rendered == shown && v.isEventUpdate;
    var instances := v.EnumerateObjectInstances("labels");
    assert !v.isEventUpdate;
  }

  /**
   * An update over three categories with `defaultId = 5` checks no radio, yet
   * since 5 > 0 it hands the host `lastSelected` again, whatever render that
   * row came from.
   */
  method RerenderWithoutCheck(v: Visual)
    requires v.Valid() && !v.isEventUpdate
    modifies v
    ensures v.lastSelected == old(v.lastSelected)
    ensures v.selectRequests == old(v.selectRequests) + [old(v.lastSelected)]
    ensures |v.rendered| == 3 && forall i :: 0 <= i < 3 ==> !v.rendered[i].checked
  {
    var values := [7, 8, 9];
    var options := UpdateWith(values, map["defaults" := map["defaultId" := Num(5)]]);
    var vm := DefaultViewModel.(numberCats := 3, defaultId := Num(5));
    DefaultIdSetting(values, 5);
    assert VisualTransform(options) == Ok(vm) && FirstCategory(options).value.values == values;
    assert !ToStringThrows(vm.fontSize) && GreaterThanNumber(vm.defaultId, 0);
    assert CheckedRow(vm.defaultId, 3) == None;
    var thrown := v.Update(options);
    RenderPlanChecked(values, vm);
  }

  /**
   * Three categories with `defaultId = 2` check the second radio and hand the
   * host row 1. A later update with `defaultId = 5` checks nothing, yet hands
   * the host row 1 again, left over from the earlier render.
   */
  method StaleSelectionOnUpdate()
  {
    var values := [7, 8, 9];
    var options := UpdateWith(values, map["defaults" := map["defaultId" := Num(2)]]);
    var vm := DefaultViewModel.(numberCats := 3, defaultId := Num(2));
    DefaultIdSetting(values, 2);
    assert VisualTransform(options) == Ok(vm) && FirstCategory(options).value.values == values;
    assert !ToStringThrows(vm.fontSize) && GreaterThanNumber(vm.defaultId, 0);
    assert LastSelectedAfter(vm.defaultId, 3, 3, None) == Some(1);

    var v := new Visual();
    var thrown := v.Update(options);
    assert v.lastSelected == Some(1) && v.selectRequests == [Some(1)];
    RerenderWithoutCheck(v);
    assert v.selectRequests == [Some(1), Some(1)];
  }

  /**
   * Three categories, `defaultId = 1` and `labels.fontSize = null`: the first
   * row is checked and recorded, then its label throws. Nothing is shown, the
   * error leaves `update` and the host is handed no selection.
   */
  method NullFontSizeAbortsRender()
  {
    var values := [7, 8, 9];
    var options := UpdateWith(values, map["defaults" := map["defaultId" := Num(1)], "labels" := map["fontSize" := Null]]);
    ScenarioNullFontSize(values);
    assert FirstCategory(options).value.values == values;
    assert LastSelectedAfter(Num(1), 3, 1, None) == Some(0);

    var v := new Visual();
    var thrown := v.Update(options);
    assert thrown && v.viewModel.value.fontSize == Null;
    assert v.rendered == [] && v.lastSelected == Some(0) && v.selectRequests == [];
  }
}
