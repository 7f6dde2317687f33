/**
 * The render plan of the slicer (`init`): one radio per category value, which
 * of them is checked and after which of them a line break follows, and the
 * selection ids built on the way. The DOM itself is not modelled.
 */
module Rendering {
  import opened Wrappers
  import opened JsValues
  import opened ViewModelBuilder

  /** One rendered radio with its label: its category value, whether it is checked, and whether a `<br>` follows it. */
  datatype RenderItem = RenderItem(value: int, checked: bool, breakAfter: bool)

  /**
   * The item for 0-based row `i`: checked when the 1-based position `i + 1`
   * loosely equals `defaultId`, followed by a break when `vertical == true` and
   * the row is not the last.
   */
  function RenderItemAt(values: seq<int>, vm: ViewModel, i: nat): RenderItem
    requires i < |values|
  {
    RenderItem(values[i], LooseEqualsNumber(vm.defaultId, i + 1), LooseEqualsTrue(vm.vertical) && i + 1 < |values|)
  }

  /** The items `init` appends, in order. */
  function RenderPlan(values: seq<int>, vm: ViewModel): (plan: seq<RenderItem>)
    ensures |plan| == |values|
    ensures forall i :: 0 <= i < |values| ==> plan[i] == RenderItemAt(values, vm, i)
  {
    seq(|values|, i requires 0 <= i < |values| => RenderItemAt(values, vm, i))
  }

  /** The category values of the rendered items, in order. */
  function ItemValues(plan: seq<RenderItem>): (values: seq<int>)
    ensures |values| == |plan|
    ensures forall i :: 0 <= i < |plan| ==> values[i] == plan[i].value
  {
    seq(|plan|, i requires 0 <= i < |plan| => plan[i].value)
  }

  /**
   * The only 0-based row whose radio can be checked among `count` rows: the
   * one at position `defaultId` (after conversion to a number), if any.
   */
  function CheckedRow(defaultId: Value, count: nat): (row: Option<nat>)
    ensures row.Some? ==> row.value < count
    ensures defaultId.Num? && 1 <= defaultId.n <= count ==> row == Some(defaultId.n - 1)
    ensures defaultId.Num? && (defaultId.n <= 0 || defaultId.n > count) ==> row.None?
  {
    if !defaultId.Null? && ToNumber(defaultId).Some? && 1 <= ToNumber(defaultId).value <= count
    then Some(ToNumber(defaultId).value - 1)
    else None
  }

  /**
   * `lastSelectedValue` once the loop has passed the first `rows` of `count`
   * rows: the checked row if the loop has reached it, else what it was before.
   */
  function LastSelectedAfter(defaultId: Value, count: nat, rows: nat, previous: Option<nat>): Option<nat> {
    match CheckedRow(defaultId, count)
    case Some(row) => if row < rows then Some(row) else previous
    case None => previous
  }

  /** One more loop step moves `lastSelectedValue` to row `k` exactly when that row's radio is checked. */
  lemma LastSelectedStep(defaultId: Value, count: nat, k: nat, current: Option<nat>, previous: Option<nat>)
    requires k < count && current == LastSelectedAfter(defaultId, count, k, previous)
    ensures LastSelectedAfter(defaultId, count, k + 1, previous)
            == if LooseEqualsNumber(defaultId, k + 1) then Some(k) else current
  {
    CheckedAtPosition(defaultId, count, k + 1);
  }

  /** The radio at 1-based position `position` is checked exactly when `CheckedRow` names its row. */
  lemma CheckedAtPosition(defaultId: Value, count: nat, position: nat)
    requires 1 <= position <= count
    ensures LooseEqualsNumber(defaultId, position) <==> CheckedRow(defaultId, count) == Some(position - 1)
  {
  }

  /** A radio is checked exactly at the row `CheckedRow` names, so at most one radio is checked. */
  lemma RenderPlanChecked(values: seq<int>, vm: ViewModel)
    ensures var plan := RenderPlan(values, vm);
            forall i :: 0 <= i < |plan| ==> (plan[i].checked <==> CheckedRow(vm.defaultId, |values|) == Some(i))
    ensures var plan := RenderPlan(values, vm);
            forall i, j :: 0 <= i < |plan| && 0 <= j < |plan| && plan[i].checked && plan[j].checked ==> i == j
  {
  }

  /** The number of line breaks in a plan. */
  function CountBreaks(plan: seq<RenderItem>): nat {
    if plan == [] then 0 else (if plan[0].breakAfter then 1 else 0) + CountBreaks(plan[1..])
  }

  lemma {:induction false} CountBreaksAllButLast(plan: seq<RenderItem>, vertical: bool)
    requires forall i :: 0 <= i < |plan| ==> (plan[i].breakAfter <==> vertical && i + 1 < |plan|)
    ensures CountBreaks(plan) == if vertical && |plan| > 0 then |plan| - 1 else 0
  {
    if plan != [] {
      var rest := plan[1..];
      assert forall i :: 0 <= i < |rest| ==> rest[i] == plan[i + 1];
      CountBreaksAllButLast(rest, vertical);
    }
  }

  /**
   * Vertical layout puts a break after every item but the last, so `count - 1`
   * breaks; otherwise there are none.
   */
  lemma RenderPlanBreaks(values: seq<int>, vm: ViewModel)
    ensures var plan := RenderPlan(values, vm);
            forall i :: 0 <= i < |plan| ==> (plan[i].breakAfter <==> LooseEqualsTrue(vm.vertical) && i + 1 < |plan|)
    ensures CountBreaks(RenderPlan(values, vm)) == if LooseEqualsTrue(vm.vertical) && |values| > 0 then |values| - 1 else 0
  {
    CountBreaksAllButLast(RenderPlan(values, vm), LooseEqualsTrue(vm.vertical));
  }

  /** A boolean `vertical` means what it says; the number 1 and the string "1" also count as vertical. */
  lemma VerticalSetting(b: bool)
    ensures LooseEqualsTrue(Bool(b)) <==> b
    ensures LooseEqualsTrue(Num(1)) && !LooseEqualsTrue(Num(2))
    ensures LooseEqualsTrue(Str("1")) && !LooseEqualsTrue(Str("true")) && !LooseEqualsTrue(Null)
  {
  }

  /**
   * The selection ids `init` builds, each abstracted to the 0-based row it was
   * built from, keyed by the category value. A value that occurs twice keeps
   * the id of its last row.
   */
  function SelectionIds(values: seq<int>): map<int, nat> {
    if values == [] then map[]
    else SelectionIds(values[..|values| - 1])[values[|values| - 1] := |values| - 1]
  }

  /**
   * The selection ids are keyed by exactly the category values, and each
   * points at the last row holding its value.
   */
  lemma {:induction false} SelectionIdsPointToLastRow(values: seq<int>)
    ensures var ids := SelectionIds(values);
            && (forall v :: v in ids <==> v in values)
            && (forall v :: v in ids ==> ids[v] < |values| && values[ids[v]] == v)
            && (forall v, j :: v in ids && ids[v] < j < |values| ==> values[j] != v)
  {
    if values != [] {
      var last := |values| - 1;
      var prefix := values[..last];
      SelectionIdsPointToLastRow(prefix);
      assert forall v :: v in values <==> v in prefix || v == values[last];
      assert forall j :: 0 <= j < last ==> values[j] == prefix[j];
    }
  }

  /** Building one more selection id adds the id of row `k` under its value. */
  lemma SelectionIdsStep(values: seq<int>, k: nat)
    requires k < |values|
    ensures SelectionIds(values[..k + 1]) == SelectionIds(values[..k])[values[k] := k]
  {
    assert values[..k + 1][..k] == values[..k];
  }
}
