# SciDataTool plot widgets: axis selector and data extractor

This project models two widgets of SciDataTool's plotting GUI:

- **Axis selector** (`WAxisSelector`). One plot slot (X, Y, ...) uses it to choose:
  - which axis of a field is plotted;
  - whether that axis is shown in its Fourier domain (the FFT action);
  - in which unit or normalization it is shown.

  It hands these on as a request string: `axis`, `axis{unit}` or `axis->norm`.
- **Data extractor** (`WDataExtractor`). It decides how an axis that is *not* plotted is collapsed:
  - a slice at one index, `axis[i]{unit}`;
  - a slice of the axis's Fourier dual, `dual[i]`;
  - a reduction, `axis=rms{unit}`, `=rss`, `=sum` or `=mean`.

  It also keeps a slider and a value field over the axis samples in step.

Each Qt widget is replaced by plain state:
- a combobox is its item list and its current index, with -1 meaning no selection;
- the slider is a value in `0..maximum`;
- shown and hidden controls are two booleans.

Each widget is a class whose methods update these fields. The loops of the source are standalone methods, each proved against a specification function:
- `ListOptions`, `FoldDuals`, `CollectNorms`/`CollectNorm`/`BuildUnitItems` and `MatchNorm` for the axis selector;
- `ApplyAction` for the FFT list surgery;
- `NearestIndex` (argmin), `SelectOperationIndex` and `RefreshOperations` for the data extractor.

The lookup tables of `SciDataTool.Functions.Plot` are not part of this model. They are a value handed to each widget (`PlotTables.Tables`):
- `fft_dict` and `ifft_dict`;
- `axes_dict`, `unit_dict`, `norm_name_dict` and `axis_norm_dict`.

`PlotTables.WellFormed` states what the widgets rely on:
- `ifft_dict` is the inverse of `fft_dict`;
- no tag is both a base and a dual;
- `"None"` is neither.

The ordered dicts whose iteration order matters (`axes_dict`, `norm_name_dict`) are sequences of pairs.

A Python exception the widgets do not catch becomes a precondition that rules it out. Examples:
- the `KeyError` of `axis_norm_dict[...]`;
- the `ValueError` of `list.index`;
- the `ValueError` of `min([])`.

The request strings get a reference reader, in module `Requests`. The round-trip lemmas show that each formatted request determines the axis, the operation, the index and the unit it was built from.

Files:
- `common.dfy`: `Option`, Python list operations, Qt combobox helpers.
- `decimal.dfy`: `str(n)` and its inverse.
- `plot_tables.dfy`: the tables.
- `requests.dfy`: the request grammar.
- `axis_selector.dfy`: module `AxisSelection`.
- `data_extractor.dfy`: module `DataExtraction`.

## Model

| member | source | states |
|---|---|---|
| Common.IndexOf | SciDataTool/GUI/WAxisSelector/WAxisSelector.py:412-413 | `list.index(x)`: a position holding `x` with no `x` before it |
| Common.Insert | SciDataTool/GUI/WAxisSelector/WAxisSelector.py:413-415 | `list.insert` adds exactly one element |
| Common.RemoveFirst | SciDataTool/GUI/WAxisSelector/WAxisSelector.py:416 | `list.remove` drops exactly one element (only when present) |
| Common.InsertThenRemove | SciDataTool/GUI/WAxisSelector/WAxisSelector.py:412-416 | `insert(index(x), y)` then `remove(x)` replaces the first `x` by `y` at the same position |
| Common.InsertKeepsOthers | SciDataTool/GUI/WDataExtractor/WDataExtractor.py:208 | inserting an item leaves every other item in its relative order |
| Common.RemoveKeepsOthers | SciDataTool/GUI/WDataExtractor/WDataExtractor.py:206 | removing an item leaves every other item in its relative order |
| Common.CurrentText | SciDataTool/GUI/WAxisSelector/WAxisSelector.py:110 | `currentText()` is the item at the current index when there is one, and `""` when nothing is selected |
| Common.Select | SciDataTool/GUI/WAxisSelector/WAxisSelector.py:217-225 | an index that names an item is kept; any other index becomes -1 (no selection) |
| Common.FindText | SciDataTool/GUI/WAxisSelector/WAxisSelector.py:164 | `findText` is non-negative exactly when the text is an item, and then finds its first occurrence |
| Decimal.NatToString | SciDataTool/GUI/WDataExtractor/WDataExtractor.py:65 | `str(n)`: non-empty decimal digits, with a leading zero only for 0 |
| Decimal.DigitsValueOfNatToString | SciDataTool/GUI/WDataExtractor/WDataExtractor.py:65 | reading the digits of `str(n)` gives back `n` |
| Decimal.NatToStringInjective | SciDataTool/GUI/WDataExtractor/WDataExtractor.py:65 | distinct slice indices print differently |
| PlotTables.Lookup | SciDataTool/GUI/WAxisSelector/WAxisSelector.py:300 | `d[k]` is the value paired with `k` |
| PlotTables.FirstKeyOf | SciDataTool/GUI/WAxisSelector/WAxisSelector.py:231-234 | the key of the first entry with a given value; none exactly when no entry has it |
| PlotTables.LastKeyOf | SciDataTool/GUI/WAxisSelector/WAxisSelector.py:450-458 | the key of the last entry with a given value; none exactly when no entry has it |
| PlotTables.LastIndexOf | SciDataTool/GUI/WAxisSelector/WAxisSelector.py:450-453 | the position of the last entry with a given value, or -1; no later entry has it |
| PlotTables.BaseTag | SciDataTool/GUI/WAxisSelector/WAxisSelector.py:207-209 | a dual name folds to the base whose FFT it is; other names stay; the result is never a dual |
| PlotTables.Label | SciDataTool/GUI/WAxisSelector/WAxisSelector.py:138-141 | the `axes_dict` label of a tag, or the tag itself |
| PlotTables.TagOfLabel | SciDataTool/GUI/WAxisSelector/WAxisSelector.py:231-236 | the tag behind a combobox text: the first key labelled so, as `.index` finds it, or the text itself |
| PlotTables.TagOfLabelOfTag | SciDataTool/GUI/WAxisSelector/WAxisSelector.py:217-236 | with distinct labels, showing a tag and reading it back gives the same tag |
| Requests.AxisRequestRoundTrip | SciDataTool/GUI/WAxisSelector/WAxisSelector.py:76-84 | the reader recovers axis and unit or normalization from `axis`, `axis{unit}`, `axis->norm` |
| Requests.ParsedAxisRequestFormats | SciDataTool/GUI/WAxisSelector/WAxisSelector.py:76-84 | every string the reader accepts is the formatting of what it read |
| Requests.SliceRoundTrip | SciDataTool/GUI/WDataExtractor/WDataExtractor.py:63-76 | `axis[i]{unit}` reads back as that slice |
| Requests.FftSliceRoundTrip | SciDataTool/GUI/WDataExtractor/WDataExtractor.py:67-71 | `dual[i]` reads back as that Fourier slice |
| Requests.ReductionRoundTrip | SciDataTool/GUI/WDataExtractor/WDataExtractor.py:73-76 | `axis=op{unit}` reads back as that reduction |
| Requests.ExtractionRoundTrip | SciDataTool/GUI/WDataExtractor/WDataExtractor.py:62-76 | every extraction request reads back as the extraction it was formatted from |
| AxisSelection.Selectable | SciDataTool/GUI/WAxisSelector/WAxisSelector.py:196-197 | an overlay or a pattern with one unique index is dropped; any other axis is kept |
| AxisSelection.SelectableAxes | SciDataTool/GUI/WAxisSelector/WAxisSelector.py:193-204 | keeps exactly the axes that are not overlays and not single-slice patterns |
| AxisSelection.SelectableConcat | SciDataTool/GUI/WAxisSelector/WAxisSelector.py:193-198 | the filter keeps order and repeats: filtering a concatenation concatenates the filtered parts |
| AxisSelection.SelectableOne | SciDataTool/GUI/WAxisSelector/WAxisSelector.py:193-198 | a single axis is kept as itself or dropped |
| AxisSelection.NoneSelectable | SciDataTool/GUI/WAxisSelector/WAxisSelector.py:193-198 | when no axis is selectable the list is empty |
| AxisSelection.FirstSelectableHeads | SciDataTool/GUI/WAxisSelector/WAxisSelector.py:193-198 | the first selectable axis heads the list |
| AxisSelection.IsXSlot | SciDataTool/GUI/WAxisSelector/WAxisSelector.py:212 | `name.lower() == "x"` holds exactly for the one-letter names `x` and `X` |
| AxisSelection.AxisOptions | SciDataTool/GUI/WAxisSelector/WAxisSelector.py:193-214 | one entry per selectable axis plus `"None"` first for a non-X slot; no entry is a dual name |
| AxisSelection.OptionsAreSelectable | SciDataTool/GUI/WAxisSelector/WAxisSelector.py:193-209 | every entry after `"None"` is the base tag of a selectable axis |
| AxisSelection.SelectableAreOffered | SciDataTool/GUI/WAxisSelector/WAxisSelector.py:193-209 | every selectable axis is offered under its base tag |
| AxisSelection.NormOptions | SciDataTool/GUI/WAxisSelector/WAxisSelector.py:199-214 | `norm_list` has one entry per selectable axis plus `None` first for a non-X slot |
| AxisSelection.OptionListsAligned | SciDataTool/GUI/WAxisSelector/WAxisSelector.py:193-214 | the two lists have equal length and entry `i` of both describes the same axis |
| AxisSelection.FoldDuals | SciDataTool/GUI/WAxisSelector/WAxisSelector.py:206-209 | the in-place loop rewrites each entry to its base tag and nothing else |
| AxisSelection.ComboItems | SciDataTool/GUI/WAxisSelector/WAxisSelector.py:217-225 | one combobox text per entry, the label of the entry |
| AxisSelection.OptionsSelectFirst | SciDataTool/GUI/WAxisSelector/WAxisSelector.py:217-236 | with distinct labels, after the options are set `axis_selected` is the first entry of `axes_list` |
| AxisSelection.SelectedAxisName | SciDataTool/GUI/WAxisSelector/WAxisSelector.py:110-113 | `"None"` while `"None"` is shown, else `axis_selected` |
| AxisSelection.AxisUnitRequest | SciDataTool/GUI/WAxisSelector/WAxisSelector.py:76-84 | `axis->norm` when `norm` is set, else `axis{unit}` for an axis, else exactly `"None"` |
| AxisSelection.AxisUnitRequestReadsBack | SciDataTool/GUI/WAxisSelector/WAxisSelector.py:76-84 | the request reads back as the selected axis with its normalization, unit or nothing |
| AxisSelection.DeclaredUnit | SciDataTool/GUI/WAxisSelector/WAxisSelector.py:293-294 | the declared unit of the axis as a one-item list exactly when the axis is a `unit_dict` key, else nothing |
| AxisSelection.AxisNormKeys | SciDataTool/GUI/WAxisSelector/WAxisSelector.py:295 | the normalization keys at the first position of the selected axis, none for a Python `None` entry |
| AxisSelection.AcceptedNorms | SciDataTool/GUI/WAxisSelector/WAxisSelector.py:298-299 | the keys kept are keys of the axis that `axis_norm_dict` accepts |
| AxisSelection.AcceptedContains | SciDataTool/GUI/WAxisSelector/WAxisSelector.py:296-298 | every accepted key of the axis is kept |
| AxisSelection.IsIdNorm | SciDataTool/GUI/WAxisSelector/WAxisSelector.py:301 | `"_id" in norm`: the text `_id` occurs somewhere in the key |
| Common.ContainsAt | SciDataTool/GUI/WAxisSelector/WAxisSelector.py:301 | substring containment holds exactly when the text occurs at some position |
| Common.OccursInTail | SciDataTool/GUI/WAxisSelector/WAxisSelector.py:301 | an occurrence in the tail of a text is an occurrence one position later in the text |
| AxisSelection.IdNorms | SciDataTool/GUI/WAxisSelector/WAxisSelector.py:301 | the by-index keys; empty exactly when no key contains `"_id"` |
| AxisSelection.IdLabel | SciDataTool/GUI/WAxisSelector/WAxisSelector.py:300-306 | `norm_id`: none exactly when no key is by index, else the label of such a key |
| AxisSelection.LastIdIndex | SciDataTool/GUI/WAxisSelector/WAxisSelector.py:298-302 | the position of the last by-index key, or -1; no later key is by index |
| AxisSelection.IdNormsEndWithLast | SciDataTool/GUI/WAxisSelector/WAxisSelector.py:298-302 | the by-index keys are empty exactly when there is no last by-index key, and end with that key |
| AxisSelection.IdLabelIsLast | SciDataTool/GUI/WAxisSelector/WAxisSelector.py:296-302 | `norm_id` is the label of the last by-index key, or none when there is none |
| AxisSelection.NormLabels | SciDataTool/GUI/WAxisSelector/WAxisSelector.py:300 | one label per key, each paired with its key in `norm_name_dict` |
| AxisSelection.CollectNorms | SciDataTool/GUI/WAxisSelector/WAxisSelector.py:296-301 | the loop adds the labels of the accepted keys, in order, and ends with the last by-index label |
| AxisSelection.CollectNorm | SciDataTool/GUI/WAxisSelector/WAxisSelector.py:299-302 | one pass of the loop extends the labels and the by-index label exactly as one more key does in the specification |
| AxisSelection.CollectStep | SciDataTool/GUI/WAxisSelector/WAxisSelector.py:299-302 | one more key adds its label when accepted, and becomes the by-index label when it is by index |
| AxisSelection.UnitItems | SciDataTool/GUI/WAxisSelector/WAxisSelector.py:284-307 | the unit items are empty when no axis is selected |
| AxisSelection.UnitItemsWithoutIndex | SciDataTool/GUI/WAxisSelector/WAxisSelector.py:292-300 | without a by-index key: the declared unit first when there is one, then the label of each accepted key, in key order |
| AxisSelection.UnitItemsByIndex | SciDataTool/GUI/WAxisSelector/WAxisSelector.py:301-307 | with a by-index key: exactly one item, the label of the last accepted by-index key |
| AxisSelection.BuildUnitItems | SciDataTool/GUI/WAxisSelector/WAxisSelector.py:284-306 | the unit items: empty for `"None"`; else declared unit then accepted labels; else only the last by-index label |
| AxisSelection.UnitItemsAreOffered | SciDataTool/GUI/WAxisSelector/WAxisSelector.py:290-306 | every unit item is the declared unit or the label of an accepted normalization of the axis |
| AxisSelection.IdNormIsExclusive | SciDataTool/GUI/WAxisSelector/WAxisSelector.py:303-306 | an accepted by-index normalization leaves exactly one unit item |
| AxisSelection.MatchNorm | SciDataTool/GUI/WAxisSelector/WAxisSelector.py:450-458 | `norm` becomes the last key whose label is the unit text, or none |
| AxisSelection.ActionMenu | SciDataTool/GUI/WAxisSelector/WAxisSelector.py:376-386 | exactly `["None", "FFT", "Filter"]` for an axis with a dual and `["None", "Filter"]` otherwise: `"FFT"` at index 1 only for an axis with a dual |
| AxisSelection.ChosenAction | SciDataTool/GUI/WAxisSelector/WAxisSelector.py:268-272 | selects the first matching item unless it is absent or `"Filter"`, in which case nothing changes |
| AxisSelection.Transform | SciDataTool/GUI/WAxisSelector/WAxisSelector.py:412-424 | FFT selects the dual, None on a dual selects the base, anything else changes nothing; only an entry equal to the old selection changes, and the first one becomes the new selection |
| AxisSelection.Reconcile | SciDataTool/GUI/WAxisSelector/WAxisSelector.py:428-434 | an unlisted selection replaces its listed dual in place; no other entry changes |
| AxisSelection.ActionStep | SciDataTool/GUI/WAxisSelector/WAxisSelector.py:412-434 | the selection is that of the transform; every entry that changes becomes the selection |
| AxisSelection.ApplyAction | SciDataTool/GUI/WAxisSelector/WAxisSelector.py:412-434 | the `insert`/`remove` surgery computes the action step |
| AxisSelection.FftReplacesInPlace | SciDataTool/GUI/WAxisSelector/WAxisSelector.py:412-417 | FFT replaces the axis by its dual at the same position and selects the dual |
| AxisSelection.NoneRestoresBase | SciDataTool/GUI/WAxisSelector/WAxisSelector.py:419-424 | None on a dual puts its base back at the same position and selects it |
| AxisSelection.FftThenNoneRestores | SciDataTool/GUI/WAxisSelector/WAxisSelector.py:412-424 | FFT then None restores both `axes_list` and `axis_selected` |
| AxisSelection.RemovalItems | SciDataTool/GUI/WAxisSelector/WAxisSelector.py:126-141 | rebuilt exactly when the base tag is listed, one item shorter than `axes_list` |
| AxisSelection.RemovalKeepsOrder | SciDataTool/GUI/WAxisSelector/WAxisSelector.py:129-141 | the rebuilt items are the labels of `axes_list` in order, less the one at the first position of the removed axis |
| AxisSelection.Labels | SciDataTool/GUI/WAxisSelector/WAxisSelector.py:138-141 | one combobox text per tag, the label of the tag at the same position |
| AxisSelection.RemovalDropsOneLabel | SciDataTool/GUI/WAxisSelector/WAxisSelector.py:129-141 | the rebuilt items are the labels of `axes_list` less exactly one copy of the removed axis's label |
| AxisSelection.LabelsRemoveAt | SciDataTool/GUI/WAxisSelector/WAxisSelector.py:131-141 | dropping one tag drops exactly its label from the labels |
| AxisSelection.NonXSlotUpdateDefined | SciDataTool/GUI/WAxisSelector/WAxisSelector.py:212-214 | a non-X slot starts on `"None"`, so refreshing it raises no lookup error |
| AxisSelection.AxisSelector.constructor | SciDataTool/GUI/WAxisSelector/WAxisSelector.py:39-44 | slot `"X"`, empty lists, nothing selected, no normalization |
| AxisSelection.AxisSelector.GetAxisSelected | SciDataTool/GUI/WAxisSelector/WAxisSelector.py:110-113 | the selected axis read from the current state |
| AxisSelection.AxisSelector.GetAxisUnitSelected | SciDataTool/GUI/WAxisSelector/WAxisSelector.py:76-84 | the request string read from the current state |
| AxisSelection.AxisSelector.SetName | SciDataTool/GUI/WAxisSelector/WAxisSelector.py:256 | only the slot name changes |
| AxisSelection.AxisSelector.SetAxisOptions | SciDataTool/GUI/WAxisSelector/WAxisSelector.py:193-236 | both lists, the axis items and `axis_selected` are rebuilt; the other comboboxes do not change |
| AxisSelection.ListOptions | SciDataTool/GUI/WAxisSelector/WAxisSelector.py:193-214 | the comprehensions, the safety loop and the `"None"` insertion build `AxisOptions` and `NormOptions` |
| AxisSelection.AxisSelector.UpdateUnit | SciDataTool/GUI/WAxisSelector/WAxisSelector.py:450-458 | only `norm` changes, to the match of the unit text |
| AxisSelection.AxisSelector.SetUnit | SciDataTool/GUI/WAxisSelector/WAxisSelector.py:282-321 | unit items rebuilt, index 0, `norm` recomputed; axis state unchanged |
| AxisSelection.AxisSelector.UpdateAxis | SciDataTool/GUI/WAxisSelector/WAxisSelector.py:350-386 | `axis_selected` read from the combobox, units rebuilt, action menu reset to index 0 |
| AxisSelection.AxisSelector.UpdateAction | SciDataTool/GUI/WAxisSelector/WAxisSelector.py:412-438 | list and selection follow the action step; units rebuilt |
| AxisSelection.AxisSelector.SetAction | SciDataTool/GUI/WAxisSelector/WAxisSelector.py:268-272 | only the action index may change, as `ChosenAction` says |
| AxisSelection.TagIsNotALabel | SciDataTool/GUI/WAxisSelector/WAxisSelector.py:164-169 | when every listed axis has an `axes_dict` label not spelt like the tag, searching the axis combobox for the tag finds nothing |
| AxisSelection.SetAxisMissesLabelledBase | SciDataTool/GUI/WAxisSelector/WAxisSelector.py:162-164 | for `freqs` with `time` shown as `Time`, the search for `time` returns -1 |
| AxisSelection.IndexOneWithoutDual | SciDataTool/GUI/WAxisSelector/WAxisSelector.py:165-166 | in the action menu of an axis without a dual, index 1 is `"Filter"` |
| AxisSelection.AxisSelector.SetAxis | SciDataTool/GUI/WAxisSelector/WAxisSelector.py:159-174 | the axis combobox is searched for the tag (the base tag for a dual) and the action index set to 1 in the current items, for a dual only; the unit is looked up only for a `unit_dict` key; every item list is kept |
| AxisSelection.AxisSelector.RemoveAxis | SciDataTool/GUI/WAxisSelector/WAxisSelector.py:126-146 | nothing changes when the axis is not listed; else the items lose it and the axis is re-read |
| AxisSelection.AxisSelector.Update | SciDataTool/GUI/WAxisSelector/WAxisSelector.py:335-339 | name, options, selection, action menu and units all rebuilt from the axes |
| AxisSelection.AxisSelector.RefreshSelection | SciDataTool/GUI/WAxisSelector/WAxisSelector.py:337-339 | selection re-read from the axis combobox, action menu at index 0, units rebuilt; name and lists kept |
| DataExtraction.TypeExtractionKeys | SciDataTool/GUI/WDataExtractor/WDataExtractor.py:10-17 | `type_extraction_dict`: the two slices map to `[`, each of the four reductions `op` to `=op`, and nothing else has an entry |
| DataExtraction.ExtractionOf | SciDataTool/GUI/WDataExtractor/WDataExtractor.py:62-76 | an extraction exactly for an operation with an entry: a slice or Fourier slice at the slider index for the two slices, else a reduction of the axis by that operation |
| DataExtraction.ExtractionString | SciDataTool/GUI/WDataExtractor/WDataExtractor.py:62-76 | none exactly for an operation without an entry; else the slice, Fourier-slice or reduction request |
| DataExtraction.ExtractionStringReadsBack | SciDataTool/GUI/WDataExtractor/WDataExtractor.py:62-76 | the request reads back as the extraction its operation stands for |
| DataExtraction.ExampleRequests | SciDataTool/GUI/WDataExtractor/WDataExtractor.py:62-76 | `angle[3]{°}`, `time=rms{s}`, and no request for overlay/filter |
| DataExtraction.LayoutFor | SciDataTool/GUI/WDataExtractor/WDataExtractor.py:238-251 | slider and value shown exactly for the two slices; button exactly for overlay/filter |
| DataExtraction.LayoutExclusive | SciDataTool/GUI/WDataExtractor/WDataExtractor.py:238-251 | the slider and the action button are never shown together |
| DataExtraction.LayoutMatchesRequest | SciDataTool/GUI/WDataExtractor/WDataExtractor.py:238-251 | the slider is shown exactly when the request reads as a slice; the button only when there is no request |
| DataExtraction.SliderTarget | SciDataTool/GUI/WDataExtractor/WDataExtractor.py:153-156 | a non-negative index is used as is, a negative one is counted back from the maximum |
| DataExtraction.SliderTargetInRange | SciDataTool/GUI/WDataExtractor/WDataExtractor.py:153-156 | the target is a slider position exactly when `-maximum <= index <= maximum` |
| DataExtraction.MinusOneIsNextToLast | SciDataTool/GUI/WDataExtractor/WDataExtractor.py:153-156 | with the maximum at the last sample, -1 lands on the next-to-last sample |
| DataExtraction.NearestIndex | SciDataTool/GUI/WDataExtractor/WDataExtractor.py:265 | argmin of the distances: a nearest sample, and no earlier sample as near |
| DataExtraction.FirstNearestUnique | SciDataTool/GUI/WDataExtractor/WDataExtractor.py:265 | the first nearest index is unique |
| DataExtraction.NearestIsFixedPoint | SciDataTool/GUI/WDataExtractor/WDataExtractor.py:265-268 | the value written back selects the same index again |
| DataExtraction.NearestOfSample | SciDataTool/GUI/WDataExtractor/WDataExtractor.py:265-268 | typing sample `k` selects `k` exactly when no earlier sample has the same value |
| DataExtraction.Min | SciDataTool/GUI/WDataExtractor/WDataExtractor.py:177 | `min`: a sample no larger than any other |
| DataExtraction.SelectOperationIndex | SciDataTool/GUI/WDataExtractor/WDataExtractor.py:130-134 | stops on the first match; without one, ends on the last item; an empty menu keeps the index |
| DataExtraction.NormalizedOperation | SciDataTool/GUI/WDataExtractor/WDataExtractor.py:121-125 | `"single"` means slice, `"list"` means overlay/filter, others stay |
| DataExtraction.DropFftSlice | SciDataTool/GUI/WDataExtractor/WDataExtractor.py:205-206 | removing `"slice (fft)"` takes one away and keeps the rest in order |
| DataExtraction.AddFftSlice | SciDataTool/GUI/WDataExtractor/WDataExtractor.py:207-208 | inserting `"slice (fft)"` puts it at position 1 and keeps the rest in order |
| DataExtraction.AdjustOperations | SciDataTool/GUI/WDataExtractor/WDataExtractor.py:205-208 | `"slice (fft)"` present exactly for an axis with a dual, at most once, at 1 when added; the other items keep their order; the list is untouched when it already fits the axis |
| DataExtraction.DataExtractor.constructor | SciDataTool/GUI/WDataExtractor/WDataExtractor.py:37-40 | name `"angle"`, no axis yet, the form's operations, slider over 0..99 |
| DataExtraction.DataExtractor.GetOperationSelected | SciDataTool/GUI/WDataExtractor/WDataExtractor.py:46-76 | the request string read from the current state |
| DataExtraction.DataExtractor.SetName | SciDataTool/GUI/WDataExtractor/WDataExtractor.py:97-102 | shown text is the label of the name; only name and text change |
| DataExtraction.DataExtractor.UpdateLayout | SciDataTool/GUI/WDataExtractor/WDataExtractor.py:235-251 | visibility follows the current operation; the button text is set only for overlay/filter |
| DataExtraction.DataExtractor.UpdateFloatEdit | SciDataTool/GUI/WDataExtractor/WDataExtractor.py:223 | the value field shows the sample under the slider |
| DataExtraction.DataExtractor.SetSlider | SciDataTool/GUI/WDataExtractor/WDataExtractor.py:152-158 | the slider moves to the target, and the value field shows that sample |
| DataExtraction.SliceValues | SciDataTool/GUI/WDataExtractor/WDataExtractor.py:170-174 | the samples in degrees for the `angle` axis, the plain values otherwise |
| DataExtraction.DataExtractor.SetSliderFloatEdit | SciDataTool/GUI/WDataExtractor/WDataExtractor.py:170-181 | values in degrees for the angle; field at the minimum; slider spans `0..len-1` |
| DataExtraction.DataExtractor.UpdateSlider | SciDataTool/GUI/WDataExtractor/WDataExtractor.py:263-268 | the slider moves to the first nearest sample, the field shows it, and the state is a fixed point |
| DataExtraction.DataExtractor.SetOperation | SciDataTool/GUI/WDataExtractor/WDataExtractor.py:114-141 | name set, operation chosen by the scan, layout refreshed, button text the operation for overlay/filter and kept otherwise, slider bound for a slice |
| DataExtraction.DataExtractor.Update | SciDataTool/GUI/WDataExtractor/WDataExtractor.py:192-211 | axis, unit, values and slider range set; the old slider value kept when still in range, else the new maximum; layout and button text follow the operation shown before the menu is refilled; the menu offers `"slice (fft)"` exactly for an axis with a dual |
| DataExtraction.DataExtractor.RefreshOperations | SciDataTool/GUI/WDataExtractor/WDataExtractor.py:199-211 | the items read back and refilled with `"slice (fft)"` added or dropped for the axis, first item selected; nothing else changes |

The constructors and the methods of the two classes speak about `old` state. Each method states every field it may change; the fields it leaves alone are stated unchanged.

Behaviours of the code worth knowing:
- **Negative slider index.** `set_slider` places a negative index at `maximum + index`, with `maximum = len - 1`. So -1 selects the next-to-last sample, not the last one as Python indexing would (`SliderTarget`, `MinusOneIsNextToLast`).
- **`set_axis` searches for a tag among labels.** `set_axis_options` fills the axis combobox with `axes_dict` labels (WAxisSelector.py:217-225), but `set_axis` calls `findText` with the tag itself, or with the base tag for a dual (WAxisSelector.py:164, 169). So an axis whose label differs from its tag is not found, and the combobox ends with no selection (`TagIsNotALabel`, `SetAxisMissesLabelledBase`).
- **`set_axis` picks action index 1 without rebuilding the menu.** The action items are those of the axis selected before. When that axis has no dual, index 1 is `"Filter"` rather than `"FFT"` (`IndexOneWithoutDual`), unless the `currentTextChanged` handler of the axis combobox rebuilds the menu first; that handler is not part of this model.
- **Fourier slice has no unit.** The `slice (fft)` request is `dual[i]` and carries no `{unit}` part (WDataExtractor.py:67-71).

## Left out

- Qt signals are not modelled. Only the calls the source makes explicitly are modelled. Examples of signal-driven updates that are left out:
  - `currentTextChanged` running `update_axis`, `update_action`, `update_unit` or `update_layout`;
  - `valueChanged` running `update_floatEdit`;
  - `editingFinished` running `update_slider`.

  The same goes for `emit`, `blockSignals` and the widget-level `blockSignals` in `set_axis`.
- Rendering is not modelled:
  - combobox width sizing (`setMinimumWidth`);
  - `setDisabled`, `update_cb_enable`, `view()`;
  - the `in_name` text of the axis selector.

  The one effect of sizing kept is the `ValueError` of `max([])` on an empty `axes_list`, kept as the precondition of `SetAxisOptions`.
- The `.ui` form files are not part of this model. The initial combobox items are constructor parameters.
  - The initial visibility of the extractor's controls is taken as all shown.
  - The initial value of its value field is taken as 0.
- `SciDataTool/Classes/DataTime.py` is generated container code with no logic the widgets use. `Data.get_values` and the radian-to-degree conversion are opaque inputs: the two value sequences of `ExtractorAxis`.
- `DataPattern` is replaced by a pattern flag plus the count of its unique indices. The dynamic `import_class` is not modelled.
- Floating point: axis values are `real`, and numpy's `argmin`/`abs` are exact.
- The `norm_list` of a fresh axis selector is Python `None`. The model uses an empty list. Every method that reads it needs `set_axis_options` to have run first.
- The extractor's `axis` starts as the `Data` class, and its `unit` and `axis_value` start unset. The model uses `None`, `""` and an empty sequence. The methods that would fail on them have preconditions.
- Qt's silent clamping in `QSlider.setValue` is not modelled. Instead, `SetSlider` and `SetOperation` require the target to be a slider position.
- Qt's clamping in `setMaximum` is modelled, because `set_slider_floatedit` relies on it.
- `AxisSelection.AxisSelector.SetAxis` checks the requested unit against the keys of `unit_dict`, which are tags, not units, exactly as the code does.
- `get_axes_name`, `get_current_action_name` and `get_name` are plain field reads. They are not separate members.
