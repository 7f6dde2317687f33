# FlexiSlicer settings and view model, in Dafny

FlexiSlicer is a Power BI slicer: a list of radio buttons, one per category
value, that filters the report when one is picked. This project models its
logic apart from the DOM and the host SDK:

- the **settings resolver** (`src/objectEnumerationUtility.ts`): `getValue`,
  `getFill` and `getCategoricalObjectValue`, defaulted lookups in the user's
  settings (object name, then property name, then value), any level of which
  the host may leave out;
- the **view-model builder** `visualTransform` (`src/visual.ts`): a guard that
  returns a literal default record when there is no category data, then seven
  settings resolved inside a `try` whose `catch` returns the same default
  record;
- the **format pane** answer of `enumerateObjectInstances`: `defaults` with
  `defaultId` corrected to 0 when it exceeds the category count, `labels`
  verbatim;
- the **`Visual` object**: the `isEventUpdate` flag that a click sets, that
  `update` checks before re-rendering and that enumeration clears, and the
  `init` loop, modelled as a render plan (which radio is checked, where line
  breaks go) and the selection ids it builds.

Modules, one per component: `Wrappers` (Option, Result), `JsValues` (the
JavaScript values a setting can hold, property reads that throw, and the
number conversions behind `>` and `==`), `HostData` (the host's data-view
shapes), `ObjectEnumerationUtility`, `ViewModelBuilder`, `FormatPane`,
`Rendering` and `Visuals` (the `Visual` class).

Settings are values of a closed datatype,
`Undefined | Null | Bool | Num(int) | Str | Obj(map)`. A fill such as
`{solid: {color: "#FF0000"}}` is an `Obj`. The TypeScript type arguments of
`getValue<T>` are erased at run time and nothing checks them, so the view
model keeps each setting as the value the resolver returned. The comparisons
the code makes on those values (`defaultId > numberCats`,
`itemctr == defaultId`, `vertical == true`, `defaultId > 0`) are modelled with
JavaScript's conversion to number and its loose equality. For example,
`defaultId = true` checks the first radio, and `null` checks none. The lookups
are functions of immutable values, so none of them can change the settings it
reads.

Some behaviours of the code are easy to misread; the model follows the code:

- The format pane corrects `defaultId` only from above. A negative id is
  reported as it is, below the advertised range `[0, numberCats]`
  (`FormatPane.ReportedDefaultId`).
- `visualTransform` is not total. `dataViews[0].metadata.objects` is read
  outside the `try` (`src/visual.ts:62`), so a data view without metadata
  throws out of the transform, and `update` then changes nothing.
- `getFill` is not total. A `null` fill, or a `null` `solid` inside it, passes
  the `!== undefined` test, and the next property read throws
  (`src/objectEnumerationUtility.ts:58`). Inside `visualTransform` that
  exception turns into the whole default record.
- When no radio is checked, `update` hands the host a stale selection. If
  `defaultId > 0`, it passes `lastSelectedValue` to `select` even when no
  radio was checked in this render. `lastSelectedValue` is never cleared, so
  it may name a row of an earlier render. `Visuals.StaleSelectionOnUpdate`
  walks through such a case.
- A `null` `fontSize` is kept by `visualTransform`, because only `undefined`
  is replaced by the default. `init` then throws at the first label's
  `fontSize.toString()` (`src/visual.ts:180`). By then the old items are
  gone, the first row's selection id is built and, if it is checked,
  `lastSelectedValue` is set. Nothing new is shown, and the error leaves
  `update` before `select`. `Visuals.NullFontSizeAbortsRender` walks through
  it.

`Visuals.ClickSuppressesRerender` walks through the click protocol. A click
is followed by an update that does not re-render, and then an enumeration
clears the flag.

## Model

| member | source | states |
|---|---|---|
| `ObjectEnumerationUtility.GetValue` | src/objectEnumerationUtility.ts:38-49 | no settings, no such object, or the property absent or `undefined`: the default; otherwise the stored value unchanged, `null` included, with no clamping or coercion |
| `ObjectEnumerationUtility.GetValueIsOptionalChain` | src/objectEnumerationUtility.ts:38-49 | `getValue` equals the optional chain `objects?.[objectName]?.[propertyName]` with only `undefined` replaced by the default |
| `ObjectEnumerationUtility.GetFill` | src/objectEnumerationUtility.ts:51-65 | no data view: the default; no metadata: throws; otherwise it throws exactly when the fill is `null` or its `solid` is `null`, and else returns `fill?.solid?.color`, with the default when that is `undefined` |
| `ObjectEnumerationUtility.GetCategoricalObjectValue` | src/objectEnumerationUtility.ts:77-94 | equals `getValue` on the settings of row `index`; no per-row settings, an index out of range or a row without settings gives the default |
| `ViewModelBuilder.VisualTransform` | src/visual.ts:39-79 | no data views, first view, categorical, categories or first column: the default record; else throws exactly when metadata is missing; a throwing colour read gives the whole default record; otherwise each setting is its resolver's answer with the default record's value as default, and `numberCats` is the number of category values |
| `ViewModelBuilder.TransformIsAllOrNothing` | src/visual.ts:63-78 | a returned view model is either the whole default record or fully resolved; a `numberCats` that differs from the category count means the default record |
| `ViewModelBuilder.NoSettingsGivesDefaults` | src/visual.ts:59-72 | with categories but no settings, the result is the default record except that `numberCats` is the category count |
| `ViewModelBuilder.NoDataViewsGivesDefaults` | src/visual.ts:41-57 | an update without data views, or with an empty list of them, gives the default record |
| `ViewModelBuilder.DefaultIdSetting` | src/visual.ts:66 | `defaults.defaultId = d` alone gives `defaultId = d` whatever the category count, everything else at its default |
| `ViewModelBuilder.ScenarioFontSize` | src/visual.ts:64-72 | five categories and `labels.fontSize = 20`: `numberCats = 5`, `fontSize = 20`, `defaultId = 0`, the rest default |
| `ViewModelBuilder.ScenarioNullFontSize` | src/visual.ts:66-68 | `labels.fontSize = null` with `defaults.defaultId = 1`: the transform keeps `fontSize = null` and `defaultId = 1`, everything else at its default |
| `ViewModelBuilder.ScenarioFontColor` | src/visual.ts:70 | `labels.fontColor = {solid: {color: "#FF0000"}}` gives `fontColor = "#FF0000"` |
| `ViewModelBuilder.ScenarioNullFill` | src/visual.ts:63-78 | a `null` font colour throws inside the `try`, so even a set `fontSize` is dropped for the default record |
| `FormatPane.ReportedDefaultId` | src/visual.ts:208-209 | the reported id never exceeds `numberCats`; an id that does not exceed it is reported unchanged, a negative one included; the only correction is to 0; a non-negative numeric id is reported within `[0, numberCats]` |
| `FormatPane.Enumerate` | src/visual.ts:206-240 | `defaults`: one instance with only `defaultId`, whose value is `ReportedDefaultId` (the stored id unless it exceeds `numberCats`, else 0), range `[0, numberCats]`, value not above the range's maximum; `labels`: one instance with the five label settings verbatim and no ranges; any other name: nothing |
| `FormatPane.ScenarioDefaultIdOutOfRange` | src/visual.ts:207-225 | `defaultId = 10` with three categories: the view model keeps 10 and the format pane shows 0 |
| `Rendering.CheckedRow` | src/visual.ts:160 | the row that can be checked is below the count; a numeric `defaultId` in `1..count` names row `defaultId - 1`; 0, a negative id or one above the count names none |
| `Rendering.RenderPlan` | src/visual.ts:146-189 | one item per category value, in order, each carrying its value |
| `Rendering.LastSelectedStep` | src/visual.ts:159-163 | after one more loop step `lastSelectedValue` is row `k` exactly when that row's radio is checked, and is otherwise unchanged |
| `Rendering.CheckedAtPosition` | src/visual.ts:160 | the radio at 1-based position `itemctr` is checked exactly when `CheckedRow` names row `itemctr - 1` |
| `Rendering.RenderPlanChecked` | src/visual.ts:159-163 | a radio is checked exactly at the row `CheckedRow` names, so at most one radio is checked |
| `Rendering.RenderPlanBreaks` | src/visual.ts:185-187 | a break follows an item exactly when `vertical == true` and the item is not the last, so there are `count - 1` breaks when vertical and none otherwise |
| `Rendering.CountBreaksAllButLast` | src/visual.ts:185-187 | a plan with a break after every item but the last has `count - 1` breaks |
| `Rendering.VerticalSetting` | src/visual.ts:185 | `vertical == true` holds for `true`, for 1 and for "1", and not for `false`, 2, "true" or `null` |
| `Rendering.SelectionIdsPointToLastRow` | src/visual.ts:146-151 | the ids are keyed by exactly the category values; each points at a row holding its value, and at the last such row |
| `Rendering.SelectionIdsStep` | src/visual.ts:149-151 | one more loop step adds the id of the current row under its value, replacing an earlier one |
| `JsValues.NumberToStringRoundTrip` | src/visual.ts:153 | `item.toString()` converted back to a number gives `item` |
| `JsValues.NumberToStringInjective` | src/visual.ts:149-162 | distinct integers have distinct strings; JavaScript converts a number key with this same conversion, so keying `selectionIds` by the integer value tells apart exactly the keys the object does |
| `JsValues.DigitsRoundTrip` | src/visual.ts:153 | the decimal digits of a natural number read back as that number |
| `Visuals.Visual.constructor` | src/visual.ts:82-96 | a new slicer has no view model, the flag cleared, nothing rendered, no selection ids, no last selection and no select requests |
| `Visuals.Visual.Init` | src/visual.ts:114-192 | without category data nothing changes and nothing throws; otherwise it throws exactly when there is a category value and `fontSize` is `null` or `undefined`, leaving nothing shown, the first row's id and `lastSelected` moved to row 0 if that row is checked; without the throw the rendered items are the render plan, the selection ids are rebuilt from the values, and `lastSelected` moves to the checked row or, when none is checked, stays as before |
| `Visuals.Visual.Update` | src/visual.ts:98-112 | a throwing transform changes nothing; otherwise the view model is replaced and the flag is kept; with the flag set nothing is re-rendered; without it `init` runs, a throw out of `init` is passed on with no select request, and otherwise `defaultId > 0` hands the host `lastSelected` |
| `Visuals.RerenderWithoutCheck` | src/visual.ts:98-112 | an update over three categories with `defaultId = 5` checks no radio yet hands the host the previous `lastSelected` again, from whatever render it came |
| `Visuals.Visual.OnClick` | src/visual.ts:165-174 | sets the flag and hands the host the selection id stored under the clicked value, which is that of the last row with that value |
| `Visuals.Visual.EnumerateObjectInstances` | src/visual.ts:202-244 | with a view model, returns the format-pane instances and clears the flag; before the first update, asking for `defaults` or `labels` throws and leaves the flag unchanged |

## Left out

- DOM construction and styling are not modelled: element creation, class names, pixel sizes, fonts and colours on labels, and the viewport. `init` is modelled as the list of rendered items, each with its value, its checked state and whether a break follows it. Removing the old children and appending the new container replace that list.
- The browser's radio-group behaviour is not modelled: in the DOM, clicking a radio unchecks the others.
- The host selection API is not modelled: `createSelectionManager`, `clear`, `applySelectionFilter`, the promise returned by `select`, and `createSelectionIdBuilder`. Each selection id is represented by the 0-based category row it was built from. A call to `select` is recorded by the row it was given (`selectRequests`).
- The `host` parameter of `visualTransform` is unused by the code and is left out.
- Numbers are integers (`Num(int)`). Fractional numbers, NaN and infinities stored as settings are not modelled.
- Category values are integers (`CategoryColumn.values: seq<int>`). A blank (`null`) category value, whose `item.toString()` throws (`src/visual.ts:153`), is not modelled. Neither are `-0`, which shares the key of `0` (`src/visual.ts:149`), fractional values, or integers of 1e21 and above, which JavaScript writes in exponent form unlike `JsValues.NumberToString`.
- `JsValues.StringToNumber` covers white-space-only strings (0) and an optional sign followed by decimal digits. Other numeric strings (surrounding white space, fractions, exponents, hexadecimal, `Infinity`) are treated as NaN. White space is JavaScript's full set of white-space and line-terminator characters.
- `JsValues.Member` reads every property of a primitive as `undefined`. That holds for the two names the code reads this way, `solid` and `color`, but not for prototype properties such as a string's `length`.
- The commented-out clamping `getValue` (`src/objectEnumerationUtility.ts:17-36`) and the commented-out `destroy` (`src/visual.ts:247-249`) are dead code and are not modelled.
