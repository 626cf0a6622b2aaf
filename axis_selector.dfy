/**
 * The axis selector of a plot slot (X, Y, ...): which axis is plotted, whether it is shown in its
 * Fourier domain, and in which unit or normalization.
 */
module AxisSelection {
  import opened Common
  import opened PlotTables
  import opened Requests

  /** One axis of the field being shown, as far as the selector looks at it. */
  datatype AxisInfo = AxisInfo(
    name: string,
    isOverlay: bool,
    isPattern: bool,            // a DataPattern axis ...
    uniqueIndexCount: nat,      // ... and the length of its unique_indices
    normalizations: seq<string> // the keys of its normalizations dict, in order
  )

  /** The part of a requested axis that `set_axis` reads. */
  datatype RequestedAxis = RequestedAxis(name: string, unit: string)

  // ---------------------------------------------------------------- axis options

  /** Overlay axes and pattern axes with a single slice are never offered. */
  predicate Selectable(a: AxisInfo)
    ensures a.isOverlay ==> !Selectable(a)
    ensures a.isPattern && a.uniqueIndexCount == 1 ==> !Selectable(a)
    ensures !a.isOverlay && !a.isPattern ==> Selectable(a)
    ensures !a.isOverlay && a.uniqueIndexCount != 1 ==> Selectable(a)
  {
    !a.isOverlay && !(a.isPattern && a.uniqueIndexCount == 1)
  }

  /** The axes the comprehensions of `set_axis_options` keep, in their order and with repeats. */
  function SelectableAxes(axes: seq<AxisInfo>): (r: seq<AxisInfo>)
    ensures |r| <= |axes|
    ensures forall a :: a in r ==> a in axes && Selectable(a)
    ensures forall a :: a in axes && Selectable(a) ==> a in r
  {
    if axes == [] then []
    else
      var rest := SelectableAxes(axes[1..]);
      assert forall a :: a in axes[1..] ==> a in axes;
      assert forall a :: a in axes ==> a == axes[0] || a in axes[1..];
      (if Selectable(axes[0]) then [axes[0]] else []) + rest
  }

  /** The filter distributes over concatenation: it keeps the order of the axes. */
  lemma {:induction false} SelectableConcat(a: seq<AxisInfo>, b: seq<AxisInfo>)
    ensures SelectableAxes(a + b) == SelectableAxes(a) + SelectableAxes(b)
  {
    if a == [] {
      assert a + b == b;
    } else {
      assert (a + b)[1..] == a[1..] + b;
      SelectableConcat(a[1..], b);
    }
  }

  /** A single axis is kept exactly when it is selectable. */
  lemma SelectableOne(a: AxisInfo)
    ensures SelectableAxes([a]) == if Selectable(a) then [a] else []
  {
    assert [a][1..] == [];
  }

  /** Axes none of which is selectable leave nothing. */
  lemma {:induction false} NoneSelectable(axes: seq<AxisInfo>)
    requires forall j :: 0 <= j < |axes| ==> !Selectable(axes[j])
    ensures SelectableAxes(axes) == []
  {
    if axes != [] {
      assert forall j :: 0 <= j < |axes[1..]| ==> axes[1..][j] == axes[j + 1];
      NoneSelectable(axes[1..]);
    }
  }

  /** The first selectable axis of the data heads the filtered list (so it is selected first). */
  lemma FirstSelectableHeads(axes: seq<AxisInfo>, i: nat)
    requires i < |axes| && Selectable(axes[i])
    requires forall j :: 0 <= j < i ==> !Selectable(axes[j])
    ensures SelectableAxes(axes) != [] && SelectableAxes(axes)[0] == axes[i]
  {
    var a, b := axes[..i], axes[i..];
    assert axes == a + b;
    NoneSelectable(a);
    SelectableConcat(a, b);
    assert SelectableAxes(b) == [axes[i]] + SelectableAxes(b[1..]);
  }

  /** The X slot must always plot an axis; `name.lower() == "x"`. */
  predicate IsXSlot(slot: string)
    ensures IsXSlot(slot) <==> |slot| == 1 && (slot[0] == 'x' || slot[0] == 'X')
  {
    slot == "x" || slot == "X"
  }

  function Offset(slot: string): nat { if IsXSlot(slot) then 0 else 1 }

  function BaseTags(t: Tables, sel: seq<AxisInfo>): (r: seq<string>)
    requires WellFormed(t)
    ensures |r| == |sel| && forall i :: 0 <= i < |sel| ==> r[i] == BaseTag(t, sel[i].name)
  {
    seq(|sel|, i requires 0 <= i < |sel| => BaseTag(t, sel[i].name))
  }

  /** The `axes_list` that `set_axis_options` builds for a slot. */
  function AxisOptions(t: Tables, slot: string, axes: seq<AxisInfo>): (r: seq<string>)
    requires WellFormed(t)
    ensures |r| == |SelectableAxes(axes)| + Offset(slot)
    ensures !IsXSlot(slot) ==> r[0] == "None"
    ensures forall i :: 0 <= i < |r| ==> r[i] !in t.ifft
  {
    (if IsXSlot(slot) then [] else ["None"]) + BaseTags(t, SelectableAxes(axes))
  }

  /** Every entry after the "None" sentinel is the base tag of an axis that may be selected. */
  lemma OptionsAreSelectable(t: Tables, slot: string, axes: seq<AxisInfo>, i: int)
    requires WellFormed(t) && Offset(slot) <= i < |AxisOptions(t, slot, axes)|
    ensures exists a :: a in axes && Selectable(a) && AxisOptions(t, slot, axes)[i] == BaseTag(t, a.name)
  {
    var a := SelectableAxes(axes)[i - Offset(slot)];
    assert a in SelectableAxes(axes);
    OptionListsAligned(t, slot, axes, i);
  }

  /** Every axis that may be selected is offered, under its base tag. */
  lemma SelectableAreOffered(t: Tables, slot: string, axes: seq<AxisInfo>, a: AxisInfo)
    requires WellFormed(t) && a in axes && Selectable(a)
    ensures BaseTag(t, a.name) in AxisOptions(t, slot, axes)
  {
    var sel := SelectableAxes(axes);
    var k :| 0 <= k < |sel| && sel[k] == a;
    OptionListsAligned(t, slot, axes, k + Offset(slot));
  }

  /**
   * The `norm_list` that `set_axis_options` builds beside `axes_list`: entry `i` holds the
   * normalizations of the axis whose tag is entry `i` of `axes_list`.
   */
  function NormOptions(slot: string, axes: seq<AxisInfo>): (r: seq<Option<seq<string>>>)
    ensures |r| == |SelectableAxes(axes)| + Offset(slot)
    ensures !IsXSlot(slot) ==> r[0] == None
    ensures forall i :: Offset(slot) <= i < |r| ==>
              r[i] == Some(SelectableAxes(axes)[i - Offset(slot)].normalizations)
  {
    var sel := SelectableAxes(axes);
    (if IsXSlot(slot) then [] else [None]) +
      seq(|sel|, i requires 0 <= i < |sel| => Some(sel[i].normalizations))
  }

  /** Entry `i` of `axes_list` and entry `i` of `norm_list` describe the same axis. */
  lemma OptionListsAligned(t: Tables, slot: string, axes: seq<AxisInfo>, i: int)
    requires WellFormed(t) && Offset(slot) <= i < |NormOptions(slot, axes)|
    ensures |AxisOptions(t, slot, axes)| == |NormOptions(slot, axes)|
    ensures var a := SelectableAxes(axes)[i - Offset(slot)];
            && AxisOptions(t, slot, axes)[i] == BaseTag(t, a.name)
            && NormOptions(slot, axes)[i] == Some(a.normalizations)
  {
    var sel := SelectableAxes(axes);
    var prefix := if IsXSlot(slot) then [] else ["None"];
    assert AxisOptions(t, slot, axes) == prefix + BaseTags(t, sel);
    assert (prefix + BaseTags(t, sel))[i] == BaseTags(t, sel)[i - Offset(slot)];
  }

  /** The "safety" loop of `set_axis_options`: every dual name is rewritten to its base, in place. */
  method FoldDuals(t: Tables, names: seq<string>) returns (r: seq<string>)
    requires WellFormed(t)
    ensures |r| == |names|
    ensures forall i :: 0 <= i < |r| ==> r[i] == BaseTag(t, names[i])
  {
    r := names;
    for i := 0 to |r|
      invariant |r| == |names|
      invariant forall j :: 0 <= j < i ==> r[j] == BaseTag(t, names[j])
      invariant forall j :: i <= j < |r| ==> r[j] == names[j]
    {
      if r[i] in t.ifft {
        r := r[i := t.ifft[r[i]]];
      }
    }
  }

  /** How `set_axis_options` builds `axes_list` and `norm_list` from the axes of the data. */
  method ListOptions(t: Tables, slot: string, axes: seq<AxisInfo>)
    returns (names: seq<string>, norms: seq<Option<seq<string>>>)
    requires WellFormed(t)
    ensures names == AxisOptions(t, slot, axes)
    ensures norms == NormOptions(slot, axes)
  {
    var selectable := SelectableAxes(axes);
    names := seq(|selectable|, i requires 0 <= i < |selectable| => selectable[i].name);
    norms := seq(|selectable|, i requires 0 <= i < |selectable| => Some(selectable[i].normalizations));
    names := FoldDuals(t, names);
    if !IsXSlot(slot) {
      names := ["None"] + names;
      norms := [None] + norms;
    }
    assert names == AxisOptions(t, slot, axes);
  }

  /** The texts put in the axis combobox for `axes_list`. */
  function ComboItems(t: Tables, axesList: seq<string>): (r: seq<string>)
    ensures |r| == |axesList|
    ensures forall i :: 0 <= i < |r| && axesList[i] !in t.ifft ==> r[i] == Label(t, axesList[i])
  {
    seq(|axesList|, i requires 0 <= i < |axesList| =>
      if axesList[i] in t.ifft then t.ifft[axesList[i]] else Label(t, axesList[i]))
  }

  /**
   * `set_axis` searches the axis combobox for a tag, but the items are labels: when every listed
   * axis has an `axes_dict` label and no label is spelt like the tag, the search finds nothing.
   */
  lemma TagIsNotALabel(t: Tables, axesList: seq<string>, tag: string)
    requires forall i :: 0 <= i < |axesList| ==> axesList[i] !in t.ifft && axesList[i] in Keys(t.axes)
    requires forall i :: 0 <= i < |t.axes| ==> t.axes[i].1 != tag
    ensures FindText(ComboItems(t, axesList), tag) == -1
  {
    var items := ComboItems(t, axesList);
    forall k | 0 <= k < |items|
      ensures items[k] != tag
    {
      assert (axesList[k], items[k]) in t.axes;
      var j :| 0 <= j < |t.axes| && t.axes[j] == (axesList[k], items[k]);
      assert t.axes[j].1 != tag;
    }
  }

  /** The shape above: `freqs` asks for `time`, but the combobox shows `Time`. */
  lemma SetAxisMissesLabelledBase()
    ensures var t := Tables(map["time" := "freqs"], map["freqs" := "time"], [("time", "Time")],
                            map[], [], map[]);
            FindText(ComboItems(t, ["time"]), t.ifft["freqs"]) == -1
  {
    var t := Tables(map["time" := "freqs"], map["freqs" := "time"], [("time", "Time")], map[], [], map[]);
    assert Keys(t.axes)[0] == "time";
    TagIsNotALabel(t, ["time"], "time");
  }

  /** With faithful labels, the first offered axis is the one selected after the options are set. */
  lemma OptionsSelectFirst(t: Tables, slot: string, axes: seq<AxisInfo>)
    requires WellFormed(t)
    requires AxisOptions(t, slot, axes) != []
    requires LabelsFaithful(t, AxisOptions(t, slot, axes)[0])
    ensures var items := ComboItems(t, AxisOptions(t, slot, axes));
            TagOfLabel(t, CurrentText(items, Select(items, 0))) == AxisOptions(t, slot, axes)[0]
  {
    TagOfLabelOfTag(t, AxisOptions(t, slot, axes)[0]);
  }

  // ---------------------------------------------------------------- the request string

  /** `get_axis_selected`: "None" while the combobox shows "None", else the selected tag. */
  function SelectedAxisName(axisText: string, axisSelected: string): (r: string)
    ensures axisText == "None" ==> r == "None"
    ensures axisText != "None" ==> r == axisSelected
  {
    if axisText == "None" then "None" else axisSelected
  }

  /** `get_axis_unit_selected`: the axis, followed by its normalization or its unit. */
  function AxisUnitRequest(axisText: string, axisSelected: string, norm: Option<string>,
                           unitText: string): (r: string)
    ensures var axis := SelectedAxisName(axisText, axisSelected);
      && (norm.Some? ==> r == FormatAxisRequest(AxisRequest(axis, WithNorm(norm.value))))
      && (norm.None? && axis != "None" ==> r == FormatAxisRequest(AxisRequest(axis, WithUnit(unitText))))
      && (norm.None? && axis == "None" ==> r == "None")
  {
    var selected := SelectedAxisName(axisText, axisSelected);
    if norm.Some? then selected + "->" + norm.value
    else if selected != "None" then selected + "{" + unitText + "}"
    else selected
  }

  /** The request string determines the axis and the unit or normalization it was built from. */
  lemma AxisUnitRequestReadsBack(axisText: string, axisSelected: string, norm: Option<string>,
                                 unitText: string)
    requires IsTag(axisSelected)
    ensures var axis := SelectedAxisName(axisText, axisSelected);
            var suffix := if norm.Some? then WithNorm(norm.value)
                          else if axis != "None" then WithUnit(unitText) else Plain;
            ParseAxisRequest(AxisUnitRequest(axisText, axisSelected, norm, unitText)) ==
              Some(AxisRequest(axis, suffix))
  {
    var axis := SelectedAxisName(axisText, axisSelected);
    assert IsTag("None");
    var suffix := if norm.Some? then WithNorm(norm.value)
                  else if axis != "None" then WithUnit(unitText) else Plain;
    assert AxisUnitRequest(axisText, axisSelected, norm, unitText) ==
           FormatAxisRequest(AxisRequest(axis, suffix));
    AxisRequestRoundTrip(AxisRequest(axis, suffix));
  }

  // ---------------------------------------------------------------- units and normalizations

  /** The `unit_dict` entry of `sel`, when it has one. */
  function DeclaredUnit(t: Tables, sel: string): (r: seq<string>)
    ensures r != [] <==> sel in t.units
    ensures r != [] ==> r == [t.units[sel]]
  {
    if sel in t.units then [t.units[sel]] else []
  }

  /** The normalization keys stored beside `sel` in `norm_list` (none for the "None" entry). */
  function AxisNormKeys(sel: string, axesList: seq<string>, normList: seq<Option<seq<string>>>): (r: seq<string>)
    requires sel in axesList && |axesList| == |normList|
    ensures forall i :: 0 <= i < |axesList| && axesList[i] == sel && sel !in axesList[..i] ==>
              (normList[i].None? ==> r == []) && (normList[i].Some? ==> r == normList[i].value)
  {
    match normList[IndexOf(axesList, sel)]
    case None => []
    case Some(keys) => keys
  }

  /** The keys of `keys` that `axis_norm_dict[sel]` accepts, in order. */
  function AcceptedNorms(t: Tables, sel: string, keys: seq<string>): (r: seq<string>)
    requires keys == [] || sel in t.axisNorms
    ensures |r| <= |keys|
    ensures forall k :: k in r ==> k in keys && sel in t.axisNorms && k in t.axisNorms[sel]
  {
    if keys == [] then []
    else
      var rest := AcceptedNorms(t, sel, keys[..|keys| - 1]);
      var k := keys[|keys| - 1];
      assert forall x :: x in keys[..|keys| - 1] ==> x in keys;
      if k in t.axisNorms[sel] then rest + [k] else rest
  }

  /** A normalization by index: its key contains "_id". */
  predicate IsIdNorm(k: string)
    ensures IsIdNorm(k) <==> exists i: nat :: OccursAt(k, "_id", i)
  {
    ContainsAt(k, "_id");
    Contains(k, "_id")
  }

  /** The keys that mark a normalization by index, in order. */
  function IdNorms(keys: seq<string>): (r: seq<string>)
    ensures forall k :: k in r ==> k in keys && IsIdNorm(k)
    ensures r == [] <==> forall k :: k in keys ==> !IsIdNorm(k)
  {
    if keys == [] then []
    else
      var rest := IdNorms(keys[..|keys| - 1]);
      var k := keys[|keys| - 1];
      assert forall x :: x in keys[..|keys| - 1] ==> x in keys;
      assert forall x :: x in keys ==> x == k || x in keys[..|keys| - 1];
      if IsIdNorm(k) then
        assert (rest + [k])[|rest|] == k;
        rest + [k]
      else rest
  }

  lemma AcceptedStep(t: Tables, sel: string, keys: seq<string>, k: string)
    requires sel in t.axisNorms
    ensures AcceptedNorms(t, sel, keys + [k]) ==
              if k in t.axisNorms[sel] then AcceptedNorms(t, sel, keys) + [k] else AcceptedNorms(t, sel, keys)
  {
    assert (keys + [k])[..|keys|] == keys;
  }

  lemma IdStep(keys: seq<string>, k: string)
    ensures IdNorms(keys + [k]) == if IsIdNorm(k) then IdNorms(keys) + [k] else IdNorms(keys)
  {
    assert (keys + [k])[..|keys|] == keys;
  }

  /** Every key of `keys` has a `norm_name_dict` label. */
  predicate AllLabelled(t: Tables, keys: seq<string>) {
    forall k :: k in keys ==> k in Keys(t.normNames)
  }

  /** The label of the last normalization by index among `keys`, if there is one. */
  function IdLabel(t: Tables, keys: seq<string>): (r: Option<string>)
    requires AllLabelled(t, keys)
    ensures r.None? <==> forall k :: k in keys ==> !IsIdNorm(k)
    ensures r.Some? ==> exists k :: k in keys && IsIdNorm(k) && (k, r.value) in t.normNames
  {
    var ids := IdNorms(keys);
    if ids == [] then None
    else
      assert ids[|ids| - 1] in ids;
      Some(Lookup(t.normNames, ids[|ids| - 1]))
  }

  lemma IdLabelStep(t: Tables, keys: seq<string>, k: string)
    requires AllLabelled(t, keys)
    requires k in Keys(t.normNames)
    ensures IdLabel(t, keys + [k]) == if IsIdNorm(k) then Some(Lookup(t.normNames, k)) else IdLabel(t, keys)
  {
    IdStep(keys, k);
  }

  lemma LabelStep(t: Tables, keys: seq<string>, k: string)
    requires AllLabelled(t, keys)
    requires k in Keys(t.normNames)
    ensures NormLabels(t, keys + [k]) == NormLabels(t, keys) + [Lookup(t.normNames, k)]
  {
    assert (keys + [k])[..|keys|] == keys;
  }

  /** The `norm_name_dict` labels of `keys`, in order. */
  function NormLabels(t: Tables, keys: seq<string>): (r: seq<string>)
    requires AllLabelled(t, keys)
    ensures |r| == |keys|
    ensures forall i :: 0 <= i < |keys| ==> (keys[i], r[i]) in t.normNames
  {
    if keys == [] then []
    else
      assert forall x :: x in keys[..|keys| - 1] ==> x in keys;
      NormLabels(t, keys[..|keys| - 1]) + [Lookup(t.normNames, keys[|keys| - 1])]
  }

  /**
   * What `set_unit` needs so that none of its lookups raises: the selected tag is listed, and when
   * it has normalizations they can be filtered and every accepted one has a label.
   */
  predicate CanSetUnit(t: Tables, sel: string, axesList: seq<string>, normList: seq<Option<seq<string>>>) {
    || sel == "None"
    || (sel in axesList && |axesList| == |normList| &&
        NormsLabelled(t, sel, AxisNormKeys(sel, axesList, normList)))
  }

  /** `axis_norm_dict[sel]` exists when there is a key to filter, and every accepted key has a label. */
  predicate NormsLabelled(t: Tables, sel: string, keys: seq<string>) {
    keys == [] ||
    (sel in t.axisNorms && forall k :: k in keys && k in t.axisNorms[sel] ==> k in Keys(t.normNames))
  }

  /**
   * The unit combobox items for `sel`: nothing for "None"; otherwise the declared unit followed by
   * the labels of the accepted normalizations, unless one of those is by index, in which case the
   * label of the last such one is the only choice.
   */
  function UnitItems(t: Tables, sel: string, axesList: seq<string>, normList: seq<Option<seq<string>>>): (r: seq<string>)
    requires CanSetUnit(t, sel, axesList, normList)
    ensures sel == "None" ==> r == []
  {
    if sel == "None" then []
    else
      var accepted := AcceptedNorms(t, sel, AxisNormKeys(sel, axesList, normList));
      match IdLabel(t, accepted)
      case Some(shown) => [shown]
      case None => DeclaredUnit(t, sel) + NormLabels(t, accepted)
  }

  /** Every unit choice offered is the declared unit or the label of a normalization of that axis. */
  lemma UnitItemsAreOffered(t: Tables, sel: string, axesList: seq<string>,
                            normList: seq<Option<seq<string>>>, x: string)
    requires CanSetUnit(t, sel, axesList, normList)
    requires x in UnitItems(t, sel, axesList, normList)
    ensures sel != "None"
    ensures || (sel in t.units && x == t.units[sel])
            || exists k :: && k in AxisNormKeys(sel, axesList, normList)
                           && sel in t.axisNorms && k in t.axisNorms[sel] && (k, x) in t.normNames
  {
    var accepted := AcceptedNorms(t, sel, AxisNormKeys(sel, axesList, normList));
    var ids := IdNorms(accepted);
    if ids != [] {
      var k := ids[|ids| - 1];
      assert k in accepted;
      assert (k, x) in t.normNames;
    } else if !(sel in t.units && x == t.units[sel]) {
      var labels := NormLabels(t, accepted);
      assert x in labels;
      var i :| 0 <= i < |labels| && labels[i] == x;
      assert accepted[i] in accepted;
    }
  }

  /** Without a normalization by index: the declared unit first, then the accepted labels in key order. */
  lemma UnitItemsWithoutIndex(t: Tables, sel: string, axesList: seq<string>, normList: seq<Option<seq<string>>>)
    requires CanSetUnit(t, sel, axesList, normList) && sel != "None"
    requires forall k :: k in AcceptedNorms(t, sel, AxisNormKeys(sel, axesList, normList)) ==> !IsIdNorm(k)
    ensures var accepted := AcceptedNorms(t, sel, AxisNormKeys(sel, axesList, normList));
            var items := UnitItems(t, sel, axesList, normList);
            var d := if sel in t.units then 1 else 0;
            && |items| == d + |accepted|
            && (sel in t.units ==> items[0] == t.units[sel])
            && forall i :: 0 <= i < |accepted| ==> (accepted[i], items[d + i]) in t.normNames
  {
    var accepted := AcceptedNorms(t, sel, AxisNormKeys(sel, axesList, normList));
    var labels := NormLabels(t, accepted);
    assert UnitItems(t, sel, axesList, normList) == DeclaredUnit(t, sel) + labels;
  }

  /** The position of the last key by index in `keys`, or -1. */
  function LastIdIndex(keys: seq<string>): (r: int)
    ensures -1 <= r < |keys|
    ensures r >= 0 ==> IsIdNorm(keys[r])
    ensures forall j :: r < j < |keys| ==> !IsIdNorm(keys[j])
  {
    if keys == [] then -1
    else if IsIdNorm(keys[|keys| - 1]) then |keys| - 1
    else LastIdIndex(keys[..|keys| - 1])
  }

  /** The by-index keys end with the last key by index. */
  lemma {:induction false} IdNormsEndWithLast(keys: seq<string>)
    ensures IdNorms(keys) == [] <==> LastIdIndex(keys) < 0
    ensures IdNorms(keys) != [] ==> IdNorms(keys)[|IdNorms(keys)| - 1] == keys[LastIdIndex(keys)]
  {
    if keys != [] && !IsIdNorm(keys[|keys| - 1]) {
      IdNormsEndWithLast(keys[..|keys| - 1]);
    }
  }

  /** `IdLabel` in closed form: the label of the last key by index, if there is one. */
  lemma IdLabelIsLast(t: Tables, keys: seq<string>)
    requires AllLabelled(t, keys)
    ensures IdLabel(t, keys) == if LastIdIndex(keys) < 0 then None
                                else Some(Lookup(t.normNames, keys[LastIdIndex(keys)]))
  {
    IdNormsEndWithLast(keys);
    var ids := IdNorms(keys);
    if ids != [] {
      assert IdLabel(t, keys) == Some(Lookup(t.normNames, ids[|ids| - 1]));
    }
  }

  /** With a normalization by index, the only unit choice is the label of the last such key. */
  lemma UnitItemsByIndex(t: Tables, sel: string, axesList: seq<string>, normList: seq<Option<seq<string>>>)
    requires CanSetUnit(t, sel, axesList, normList) && sel != "None"
    requires exists k :: k in AcceptedNorms(t, sel, AxisNormKeys(sel, axesList, normList)) && IsIdNorm(k)
    ensures var accepted := AcceptedNorms(t, sel, AxisNormKeys(sel, axesList, normList));
            var i := LastIdIndex(accepted);
            i >= 0 && UnitItems(t, sel, axesList, normList) == [Lookup(t.normNames, accepted[i])]
  {
    var accepted := AcceptedNorms(t, sel, AxisNormKeys(sel, axesList, normList));
    IdLabelIsLast(t, accepted);
    var k :| k in accepted && IsIdNorm(k);
  }

  /** A normalization by index excludes every other choice. */
  lemma IdNormIsExclusive(t: Tables, sel: string, axesList: seq<string>,
                          normList: seq<Option<seq<string>>>, k: string)
    requires CanSetUnit(t, sel, axesList, normList) && sel != "None"
    requires k in AxisNormKeys(sel, axesList, normList) && sel in t.axisNorms
    requires k in t.axisNorms[sel] && IsIdNorm(k)
    ensures |UnitItems(t, sel, axesList, normList)| == 1
  {
    var keys := AxisNormKeys(sel, axesList, normList);
    AcceptedContains(t, sel, keys, k);
    assert k in IdNorms(AcceptedNorms(t, sel, keys)) || IdNorms(AcceptedNorms(t, sel, keys)) != [];
  }

  lemma {:induction false} AcceptedContains(t: Tables, sel: string, keys: seq<string>, k: string)
    requires sel in t.axisNorms && k in keys && k in t.axisNorms[sel]
    ensures k in AcceptedNorms(t, sel, keys)
  {
    var last := keys[|keys| - 1];
    if k != last {
      assert keys == keys[..|keys| - 1] + [last];
      AcceptedContains(t, sel, keys[..|keys| - 1], k);
    }
  }

  /**
   * The loop of `set_unit` over the normalization keys: the labels it adds, and the label of the
   * last accepted normalization by index, if any.
   */
  method CollectNorms(t: Tables, sel: string, keys: seq<string>)
    returns (labels: seq<string>, normId: Option<string>)
    requires NormsLabelled(t, sel, keys)
    ensures var accepted := AcceptedNorms(t, sel, keys);
            && AllLabelled(t, accepted)
            && labels == NormLabels(t, accepted)
            && normId == IdLabel(t, accepted)
  {
    labels, normId := [], None;
    for i := 0 to |keys|
      invariant AllLabelled(t, AcceptedNorms(t, sel, keys[..i]))
      invariant labels == NormLabels(t, AcceptedNorms(t, sel, keys[..i]))
      invariant normId == IdLabel(t, AcceptedNorms(t, sel, keys[..i]))
    {
      PrefixStep(keys, i);
      labels, normId := CollectNorm(t, sel, keys[..i], keys[i], labels, normId);
    }
    assert keys[..|keys|] == keys;
  }

  /** The body of the `set_unit` loop for key `k`, after the keys `done`. */
  method CollectNorm(t: Tables, sel: string, done: seq<string>, k: string,
                     labels: seq<string>, normId: Option<string>)
    returns (labels': seq<string>, normId': Option<string>)
    requires sel in t.axisNorms
    requires AllLabelled(t, AcceptedNorms(t, sel, done))
    requires k in t.axisNorms[sel] ==> k in Keys(t.normNames)
    requires labels == NormLabels(t, AcceptedNorms(t, sel, done))
    requires normId == IdLabel(t, AcceptedNorms(t, sel, done))
    ensures AllLabelled(t, AcceptedNorms(t, sel, done + [k]))
    ensures labels' == NormLabels(t, AcceptedNorms(t, sel, done + [k]))
    ensures normId' == IdLabel(t, AcceptedNorms(t, sel, done + [k]))
  {
    CollectStep(t, sel, done, k);
    labels', normId' := labels, normId;
    if k in t.axisNorms[sel] {
      var shown := Lookup(t.normNames, k);
      labels' := labels + [shown];
      if IsIdNorm(k) {
        normId' := Some(shown);
      }
    }
  }

  /** One key of the `set_unit` loop: what it adds to the labels and to the label by index. */
  lemma CollectStep(t: Tables, sel: string, keys: seq<string>, k: string)
    requires sel in t.axisNorms
    requires AllLabelled(t, AcceptedNorms(t, sel, keys))
    requires k in t.axisNorms[sel] ==> k in Keys(t.normNames)
    ensures AllLabelled(t, AcceptedNorms(t, sel, keys + [k]))
    ensures NormLabels(t, AcceptedNorms(t, sel, keys + [k])) ==
              if k in t.axisNorms[sel] then NormLabels(t, AcceptedNorms(t, sel, keys)) + [Lookup(t.normNames, k)]
              else NormLabels(t, AcceptedNorms(t, sel, keys))
    ensures IdLabel(t, AcceptedNorms(t, sel, keys + [k])) ==
              if k in t.axisNorms[sel] && IsIdNorm(k) then Some(Lookup(t.normNames, k))
              else IdLabel(t, AcceptedNorms(t, sel, keys))
  {
    var accepted := AcceptedNorms(t, sel, keys);
    AcceptedStep(t, sel, keys, k);
    if k in t.axisNorms[sel] {
      LabelStep(t, accepted, k);
      IdLabelStep(t, accepted, k);
    }
  }

  /** `set_unit`'s filling of the unit combobox. */
  method BuildUnitItems(t: Tables, sel: string, axesList: seq<string>,
                        normList: seq<Option<seq<string>>>) returns (items: seq<string>)
    requires CanSetUnit(t, sel, axesList, normList)
    ensures items == UnitItems(t, sel, axesList, normList)
  {
    if sel == "None" {
      return [];
    }
    var labels, normId := CollectNorms(t, sel, AxisNormKeys(sel, axesList, normList));
    if normId.Some? {
      items := [normId.value];
    } else {
      items := DeclaredUnit(t, sel) + labels;
    }
  }

  /** The loop of `update_unit`: the last normalization key whose label is the current unit text. */
  method MatchNorm(normNames: Table, text: string) returns (norm: Option<string>)
    ensures norm == LastKeyOf(normNames, text)
  {
    norm := None;
    var i := 0;
    while i < |normNames|
      invariant 0 <= i <= |normNames|
      invariant norm == LastKeyOf(normNames[..i], text)
    {
      assert normNames[..i + 1][..i] == normNames[..i];
      if normNames[i].1 == text {
        norm := Some(normNames[i].0);
      }
      i := i + 1;
    }
    assert normNames[..i] == normNames;
  }

  // ---------------------------------------------------------------- actions

  /** The action combobox items for a selected tag. */
  function ActionMenu(t: Tables, sel: string): (r: seq<string>)
    ensures |r| >= 2 && r[0] == "None" && r[|r| - 1] == "Filter"
    ensures "FFT" in r <==> sel in t.fft
    ensures |r| == if sel in t.fft then 3 else 2
    ensures sel in t.fft ==> r[1] == "FFT"
  {
    if sel in t.fft then ["None", "FFT", "Filter"] else ["None", "Filter"]
  }

  /**
   * `set_axis` moves the action combobox to index 1 without rebuilding it: when the menu still is
   * that of an axis without a dual, index 1 is "Filter", not "FFT".
   */
  lemma IndexOneWithoutDual(t: Tables, sel: string)
    requires sel !in t.fft
    ensures Select(ActionMenu(t, sel), 1) == 1 && ActionMenu(t, sel)[1] == "Filter"
  {
  }

  /** `set_action`: only an item that is present and is not "Filter" is selected. */
  function ChosenAction(items: seq<string>, action: string, current: int): (r: int)
    ensures action in items && action != "Filter" ==>
              0 <= r < |items| && items[r] == action && action !in items[..r]
    ensures !(action in items && action != "Filter") ==> r == current
  {
    if action in items && action != "Filter" then IndexOf(items, action) else current
  }

  /** The `index` lookups of the transform step of `update_action` succeed. */
  predicate TransformDefined(t: Tables, action: string, axesList: seq<string>, sel: string) {
    && (action == "FFT" && sel in t.fft ==> sel in axesList)
    && (action == "None" && sel in t.ifft ==> sel in axesList)
  }

  /** FFT swaps the selected tag for its dual, None swaps a dual back; each at the same position. */
  function Transform(t: Tables, action: string, axesList: seq<string>, sel: string): (r: (seq<string>, string))
    requires TransformDefined(t, action, axesList, sel)
    ensures |r.0| == |axesList|
    ensures action == "FFT" && sel in t.fft ==> r.1 == t.fft[sel]
    ensures action == "None" && sel in t.ifft && !(action == "FFT" && sel in t.fft) ==> r.1 == t.ifft[sel]
    ensures !(action == "FFT" && sel in t.fft) && !(action == "None" && sel in t.ifft) ==> r == (axesList, sel)
    ensures r.1 != sel ==> sel in axesList && r.0[IndexOf(axesList, sel)] == r.1
    ensures forall i :: 0 <= i < |axesList| && r.0[i] != axesList[i] ==> axesList[i] == sel && r.0[i] == r.1
  {
    if action == "FFT" && sel in t.fft then
      (axesList[IndexOf(axesList, sel) := t.fft[sel]], t.fft[sel])
    else if action == "None" && sel in t.ifft then
      (axesList[IndexOf(axesList, sel) := t.ifft[sel]], t.ifft[sel])
    else (axesList, sel)
  }

  /**
   * The repair step of `update_action`: a selection missing from the list takes the place of its
   * dual. Only that one entry can change.
   */
  function Reconcile(t: Tables, axesList: seq<string>, sel: string): (r: seq<string>)
    requires sel in axesList || sel in t.fft
    ensures |r| == |axesList|
    ensures sel in r || (sel !in axesList && t.fft[sel] !in axesList)
    ensures forall i :: 0 <= i < |axesList| && r[i] != axesList[i] ==>
              sel !in axesList && sel in t.fft && axesList[i] == t.fft[sel] && r[i] == sel
  {
    if sel !in axesList && t.fft[sel] in axesList then
      var i := IndexOf(axesList, t.fft[sel]);
      assert axesList[i := sel][i] == sel;
      axesList[i := sel]
    else axesList
  }

  /** `update_action` raises no KeyError or ValueError. */
  predicate ActionDefined(t: Tables, action: string, axesList: seq<string>, sel: string) {
    && TransformDefined(t, action, axesList, sel)
    && var m := Transform(t, action, axesList, sel);
       m.1 in m.0 || m.1 in t.fft
  }

  /** The new `(axes_list, axis_selected)` after `update_action`. */
  function ActionStep(t: Tables, action: string, axesList: seq<string>, sel: string): (r: (seq<string>, string))
    requires ActionDefined(t, action, axesList, sel)
    ensures |r.0| == |axesList|
    ensures r.1 == Transform(t, action, axesList, sel).1
    ensures forall i :: 0 <= i < |axesList| && r.0[i] != axesList[i] ==> r.0[i] == r.1
  {
    var m := Transform(t, action, axesList, sel);
    (Reconcile(t, m.0, m.1), m.1)
  }

  /** The list surgery of `update_action`, done with `insert` and `remove` as the widget does. */
  method ApplyAction(t: Tables, action: string, axesList: seq<string>, sel: string)
    returns (list: seq<string>, selected: string)
    requires WellFormed(t) && ActionDefined(t, action, axesList, sel)
    ensures (list, selected) == ActionStep(t, action, axesList, sel)
  {
    list, selected := axesList, sel;
    if action == "FFT" && selected in t.fft {
      var dual := t.fft[selected];
      assert dual in t.ifft;
      InsertThenRemove(list, selected, dual);
      list := Insert(list, IndexOf(list, selected), dual);
      list := RemoveFirst(list, selected);
      selected := dual;
    } else if action == "None" && selected in t.ifft {
      var base := t.ifft[selected];
      assert base in t.fft;
      InsertThenRemove(list, selected, base);
      list := Insert(list, IndexOf(list, selected), base);
      list := RemoveFirst(list, selected);
      selected := base;
    }
    if selected !in list {
      var dual := t.fft[selected];
      if dual in list {
        InsertThenRemove(list, dual, selected);
        list := Insert(list, IndexOf(list, dual), selected);
        list := RemoveFirst(list, dual);
      }
    }
  }

  /** Choosing FFT replaces the selected axis by its dual at the same position and selects the dual. */
  lemma FftReplacesInPlace(t: Tables, axesList: seq<string>, sel: string)
    requires WellFormed(t) && sel in t.fft && sel in axesList
    ensures ActionDefined(t, "FFT", axesList, sel)
    ensures ActionStep(t, "FFT", axesList, sel) ==
              (axesList[IndexOf(axesList, sel) := t.fft[sel]], t.fft[sel])
  {
    var i := IndexOf(axesList, sel);
    assert axesList[i := t.fft[sel]][i] == t.fft[sel];
  }

  /** Choosing None on a dual puts its base back at the same position and selects the base. */
  lemma NoneRestoresBase(t: Tables, axesList: seq<string>, sel: string)
    requires WellFormed(t) && sel in t.ifft && sel in axesList
    ensures ActionDefined(t, "None", axesList, sel)
    ensures ActionStep(t, "None", axesList, sel) ==
              (axesList[IndexOf(axesList, sel) := t.ifft[sel]], t.ifft[sel])
  {
    var i := IndexOf(axesList, sel);
    assert axesList[i := t.ifft[sel]][i] == t.ifft[sel];
  }

  /** FFT followed by None gives back both the list and the selection. */
  lemma FftThenNoneRestores(t: Tables, axesList: seq<string>, sel: string)
    requires WellFormed(t) && sel in t.fft && sel in axesList && t.fft[sel] !in axesList
    ensures ActionDefined(t, "FFT", axesList, sel)
    ensures var m := ActionStep(t, "FFT", axesList, sel);
            ActionDefined(t, "None", m.0, m.1) && ActionStep(t, "None", m.0, m.1) == (axesList, sel)
  {
    FftReplacesInPlace(t, axesList, sel);
    var i := IndexOf(axesList, sel);
    var dual := t.fft[sel];
    var swapped := axesList[i := dual];
    assert swapped[..i] == axesList[..i];
    IndexOfIsFirst(swapped, dual, i);
    NoneRestoresBase(t, swapped, dual);
    assert swapped[i := sel] == axesList;
  }

  // ---------------------------------------------------------------- removal

  /** The texts `remove_axis` puts in the axis combobox for `tags`, one per tag, in order. */
  function Labels(t: Tables, tags: seq<string>): (r: seq<string>)
    ensures |r| == |tags|
    ensures forall i :: 0 <= i < |tags| ==> r[i] == Label(t, tags[i])
  {
    if tags == [] then [] else [Label(t, tags[0])] + Labels(t, tags[1..])
  }

  /**
   * The axis combobox items `remove_axis` rebuilds: the labels of `axes_list` without the first
   * occurrence of the base tag of the removed axis; nothing happens when it is not listed.
   */
  function RemovalItems(t: Tables, axesList: seq<string>, x: string): (r: Option<seq<string>>)
    requires WellFormed(t)
    ensures r.Some? <==> BaseTag(t, x) in axesList
    ensures r.Some? ==> |r.value| == |axesList| - 1
  {
    var target := BaseTag(t, x);
    if target in axesList then Some(Labels(t, RemoveFirst(axesList, target))) else None
  }

  /** Removing an axis drops exactly one copy of its label from the combobox items. */
  /** The rebuilt items are the old labels in their order, less the one at the removed axis. */
  lemma RemovalKeepsOrder(t: Tables, axesList: seq<string>, x: string)
    requires WellFormed(t) && BaseTag(t, x) in axesList
    ensures RemovalItems(t, axesList, x).Some?
    ensures var i := IndexOf(axesList, BaseTag(t, x));
            RemovalItems(t, axesList, x).value == Labels(t, axesList)[..i] + Labels(t, axesList)[i + 1..]
  {
    LabelsRemoveAt(t, axesList, IndexOf(axesList, BaseTag(t, x)));
  }

  lemma RemovalDropsOneLabel(t: Tables, axesList: seq<string>, x: string)
    requires WellFormed(t) && BaseTag(t, x) in axesList
    ensures RemovalItems(t, axesList, x).Some?
    ensures multiset(RemovalItems(t, axesList, x).value) + multiset{Label(t, BaseTag(t, x))} ==
              multiset(Labels(t, axesList))
  {
    LabelsRemoveAt(t, axesList, IndexOf(axesList, BaseTag(t, x)));
  }

  lemma LabelsRemoveAt(t: Tables, s: seq<string>, i: nat)
    requires i < |s|
    ensures Labels(t, s[..i] + s[i + 1..]) == Labels(t, s)[..i] + Labels(t, s)[i + 1..]
    ensures multiset(Labels(t, s[..i] + s[i + 1..])) + multiset{Label(t, s[i])} == multiset(Labels(t, s))
  {
    var l, r := Labels(t, s), Labels(t, s[..i] + s[i + 1..]);
    forall k | 0 <= k < |r|
      ensures r[k] == (l[..i] + l[i + 1..])[k]
    {
      if k < i {
        assert (s[..i] + s[i + 1..])[k] == s[k];
      } else {
        assert (s[..i] + s[i + 1..])[k] == s[k + 1];
      }
    }
    assert r == l[..i] + l[i + 1..];
    SplitAt(l, i);
  }

  // ---------------------------------------------------------------- the widget

  /** Whether an `update` of the widget raises no lookup error, for the options it will build. */
  predicate UpdateDefined(t: Tables, slot: string, axes: seq<AxisInfo>)
    requires WellFormed(t)
  {
    var axesList := AxisOptions(t, slot, axes);
    var items := ComboItems(t, axesList);
    CanSetUnit(t, TagOfLabel(t, CurrentText(items, Select(items, 0))), axesList, NormOptions(slot, axes))
  }

  /** A non-X slot starts on "None", for which an update can always be done. */
  lemma NonXSlotUpdateDefined(t: Tables, slot: string, axes: seq<AxisInfo>)
    requires WellFormed(t) && !IsXSlot(slot) && LabelsFaithful(t, "None")
    ensures UpdateDefined(t, slot, axes)
  {
    OptionsSelectFirst(t, slot, axes);
  }

  class AxisSelector {
    const tables: Tables
    var name: string                            // the slot name ("X", "Y", ...)
    var axesList: seq<string>                   // axes_list
    var normList: seq<Option<seq<string>>>      // norm_list
    var axisSelected: string                    // axis_selected
    var norm: Option<string>                    // norm
    var axisItems: seq<string>                  // c_axis
    var axisIndex: int
    var actionItems: seq<string>                // c_action
    var actionIndex: int
    var unitItems: seq<string>                  // c_unit
    var unitIndex: int

    ghost predicate Valid()
      reads this
    {
      && WellFormed(tables)
      && |axesList| == |normList|
      && -1 <= axisIndex < |axisItems|
      && -1 <= actionIndex < |actionItems|
      && -1 <= unitIndex < |unitItems|
    }

    function AxisCombo(): (seq<string>, int) reads this { (axisItems, axisIndex) }
    function ActionCombo(): (seq<string>, int) reads this { (actionItems, actionIndex) }
    function UnitCombo(): (seq<string>, int) reads this { (unitItems, unitIndex) }

    /** The comboboxes start with the items the widget's form gives them. */
    constructor (t: Tables, axisItems0: seq<string>, actionItems0: seq<string>, unitItems0: seq<string>)
      requires WellFormed(t)
      ensures Valid() && tables == t
      ensures name == "X" && axesList == [] && normList == [] && axisSelected == "None" && norm == None
      ensures AxisCombo() == (axisItems0, Select(axisItems0, 0))
      ensures ActionCombo() == (actionItems0, Select(actionItems0, 0))
      ensures UnitCombo() == (unitItems0, Select(unitItems0, 0))
    {
      tables := t;
      name := "X";
      axesList, normList := [], [];
      axisSelected, norm := "None", None;
      axisItems, axisIndex := axisItems0, Select(axisItems0, 0);
      actionItems, actionIndex := actionItems0, Select(actionItems0, 0);
      unitItems, unitIndex := unitItems0, Select(unitItems0, 0);
    }

    function GetAxisSelected(): (r: string)
      reads this
      ensures r == SelectedAxisName(CurrentText(axisItems, axisIndex), axisSelected)
    {
      SelectedAxisName(CurrentText(axisItems, axisIndex), axisSelected)
    }

    function GetAxisUnitSelected(): (r: string)
      reads this
      ensures r == AxisUnitRequest(CurrentText(axisItems, axisIndex), axisSelected, norm,
                                   CurrentText(unitItems, unitIndex))
    {
      AxisUnitRequest(CurrentText(axisItems, axisIndex), axisSelected, norm,
                      CurrentText(unitItems, unitIndex))
    }

    method SetName(slot: string)
      requires Valid()
      modifies this
      ensures Valid() && name == slot
      ensures axesList == old(axesList) && normList == old(normList)
      ensures axisSelected == old(axisSelected) && norm == old(norm)
      ensures AxisCombo() == old(AxisCombo()) && ActionCombo() == old(ActionCombo())
      ensures UnitCombo() == old(UnitCombo())
    {
      name := slot;
    }

    /** Needs at least one entry: the combobox is sized from the longest one. */
    method SetAxisOptions(axes: seq<AxisInfo>)
      requires Valid() && AxisOptions(tables, name, axes) != []
      modifies this
      ensures name == old(name) && norm == old(norm)
      ensures ActionCombo() == old(ActionCombo()) && UnitCombo() == old(UnitCombo())
      ensures Valid()
      ensures axesList == AxisOptions(tables, name, axes)
      ensures normList == NormOptions(name, axes)
      ensures AxisCombo() == (ComboItems(tables, axesList), Select(axisItems, 0))
      ensures axisSelected == TagOfLabel(tables, CurrentText(axisItems, axisIndex))
    {
      axesList, normList := ListOptions(tables, name, axes);
      axisItems := ComboItems(tables, axesList);
      axisIndex := Select(axisItems, 0);
      axisSelected := TagOfLabel(tables, CurrentText(axisItems, axisIndex));
    }

    method UpdateUnit()
      requires Valid()
      modifies this
      ensures Valid()
      ensures norm == LastKeyOf(tables.normNames, CurrentText(unitItems, unitIndex))
      ensures name == old(name) && axesList == old(axesList) && normList == old(normList)
      ensures axisSelected == old(axisSelected)
      ensures AxisCombo() == old(AxisCombo()) && ActionCombo() == old(ActionCombo())
      ensures UnitCombo() == old(UnitCombo())
    {
      norm := MatchNorm(tables.normNames, CurrentText(unitItems, unitIndex));
    }

    method SetUnit()
      requires Valid() && CanSetUnit(tables, axisSelected, axesList, normList)
      modifies this
      ensures Valid()
      ensures name == old(name) && axesList == old(axesList) && normList == old(normList)
      ensures axisSelected == old(axisSelected)
      ensures AxisCombo() == old(AxisCombo()) && ActionCombo() == old(ActionCombo())
      ensures unitItems == UnitItems(tables, axisSelected, axesList, normList)
      ensures unitIndex == Select(unitItems, 0)
      ensures norm == LastKeyOf(tables.normNames, CurrentText(unitItems, unitIndex))
    {
      unitItems := BuildUnitItems(tables, axisSelected, axesList, normList);
      unitIndex := Select(unitItems, 0);
      UpdateUnit();
    }

    method UpdateAxis()
      requires Valid()
      requires CanSetUnit(tables, TagOfLabel(tables, CurrentText(axisItems, axisIndex)), axesList, normList)
      modifies this
      ensures name == old(name) && axesList == old(axesList) && normList == old(normList)
      ensures AxisCombo() == old(AxisCombo())
      ensures Valid()
      ensures axisSelected == TagOfLabel(tables, CurrentText(axisItems, axisIndex))
      ensures ActionCombo() == (ActionMenu(tables, axisSelected), 0)
      ensures unitItems == UnitItems(tables, axisSelected, axesList, normList)
      ensures unitIndex == Select(unitItems, 0)
      ensures norm == LastKeyOf(tables.normNames, CurrentText(unitItems, unitIndex))
    {
      actionIndex := Select(actionItems, 0);
      axisSelected := TagOfLabel(tables, CurrentText(axisItems, axisIndex));
      SetUnit();
      actionItems := ActionMenu(tables, axisSelected);
      actionIndex := 0;
    }

    method UpdateAction()
      requires Valid()
      requires ActionDefined(tables, CurrentText(actionItems, actionIndex), axesList, axisSelected)
      requires var m := ActionStep(tables, CurrentText(actionItems, actionIndex), axesList, axisSelected);
               CanSetUnit(tables, m.1, m.0, normList)
      modifies this
      ensures Valid()
      ensures name == old(name) && normList == old(normList)
      ensures AxisCombo() == old(AxisCombo()) && ActionCombo() == old(ActionCombo())
      ensures (axesList, axisSelected) ==
                ActionStep(tables, old(CurrentText(actionItems, actionIndex)), old(axesList), old(axisSelected))
      ensures unitItems == UnitItems(tables, axisSelected, axesList, normList)
      ensures unitIndex == Select(unitItems, 0)
      ensures norm == LastKeyOf(tables.normNames, CurrentText(unitItems, unitIndex))
    {
      axesList, axisSelected := ApplyAction(tables, CurrentText(actionItems, actionIndex), axesList, axisSelected);
      SetUnit();
    }

    method SetAction(action: string)
      requires Valid()
      modifies this
      ensures Valid()
      ensures actionItems == old(actionItems)
      ensures actionIndex == ChosenAction(actionItems, action, old(actionIndex))
      ensures name == old(name) && axesList == old(axesList) && normList == old(normList)
      ensures axisSelected == old(axisSelected) && norm == old(norm)
      ensures AxisCombo() == old(AxisCombo()) && UnitCombo() == old(UnitCombo())
    {
      actionIndex := ChosenAction(actionItems, action, actionIndex);
    }

    /**
     * Points the comboboxes at a requested axis. For a dual, the axis combobox is searched for the
     * base's tag and the action combobox is moved to index 1; otherwise the tag itself is searched.
     * The search is for a tag among label texts, and index 1 is taken in the action items as they are.
     */
    method SetAxis(axis: RequestedAxis)
      requires Valid()
      modifies this
      ensures Valid()
      ensures axisItems == old(axisItems) && actionItems == old(actionItems) && unitItems == old(unitItems)
      ensures axis.name in tables.ifft ==>
                axisIndex == FindText(axisItems, tables.ifft[axis.name]) && actionIndex == Select(actionItems, 1)
      ensures axis.name !in tables.ifft ==>
                axisIndex == FindText(axisItems, axis.name) && actionIndex == old(actionIndex)
      ensures unitIndex == if axis.unit in tables.units then FindText(unitItems, axis.unit)
                           else old(unitIndex)
      ensures name == old(name) && axesList == old(axesList) && normList == old(normList)
      ensures axisSelected == old(axisSelected) && norm == old(norm)
    {
      if axis.name in tables.ifft {
        axisIndex := FindText(axisItems, tables.ifft[axis.name]);
        actionIndex := Select(actionItems, 1);
      } else {
        axisIndex := FindText(axisItems, axis.name);
      }
      if axis.unit in tables.units {
        unitIndex := FindText(unitItems, axis.unit);
      }
    }

    method RemoveAxis(x: string)
      requires Valid()
      requires var items := RemovalItems(tables, axesList, x);
               items.Some? ==>
                 CanSetUnit(tables, TagOfLabel(tables, CurrentText(items.value, Select(items.value, 0))),
                            axesList, normList)
      modifies this
      ensures axesList == old(axesList) && normList == old(normList) && name == old(name)
      ensures Valid()
      ensures RemovalItems(tables, axesList, x).None? ==> unchanged(this)
      ensures RemovalItems(tables, axesList, x).Some? ==>
                && AxisCombo() == (RemovalItems(tables, axesList, x).value, Select(axisItems, 0))
                && axisSelected == TagOfLabel(tables, CurrentText(axisItems, axisIndex))
                && actionItems == ActionMenu(tables, axisSelected) && actionIndex == 0
                && unitItems == UnitItems(tables, axisSelected, axesList, normList)
                && unitIndex == Select(unitItems, 0)
                && norm == LastKeyOf(tables.normNames, CurrentText(unitItems, unitIndex))
    {
      var items := RemovalItems(tables, axesList, x);
      if items.Some? {
        axisItems := items.value;
        axisIndex := Select(axisItems, 0);
        UpdateAxis();
      }
    }

    /** Sets the slot name, rebuilds the options and recomputes selection, actions and units. */
    method Update(axes: seq<AxisInfo>, slot: string)
      requires Valid() && AxisOptions(tables, slot, axes) != [] && UpdateDefined(tables, slot, axes)
      modifies this
      ensures Valid() && name == slot
      ensures axesList == AxisOptions(tables, slot, axes) && normList == NormOptions(slot, axes)
      ensures AxisCombo() == (ComboItems(tables, axesList), Select(axisItems, 0))
      ensures axisSelected == TagOfLabel(tables, CurrentText(axisItems, axisIndex))
      ensures ActionCombo() == (ActionMenu(tables, axisSelected), 0)
      ensures unitItems == UnitItems(tables, axisSelected, axesList, normList)
      ensures unitIndex == Select(unitItems, 0)
      ensures norm == LastKeyOf(tables.normNames, CurrentText(unitItems, unitIndex))
    {
      SetName(slot);
      SetAxisOptions(axes);
      assert CanSetUnit(tables, TagOfLabel(tables, CurrentText(axisItems, axisIndex)), axesList, normList);
      RefreshSelection();
    }

    /** The tail of `update`: re-reads the selected axis, resets the action menu and rebuilds the units. */
    method RefreshSelection()
      requires Valid()
      requires CanSetUnit(tables, TagOfLabel(tables, CurrentText(axisItems, axisIndex)), axesList, normList)
      modifies this
      ensures name == old(name) && axesList == old(axesList) && normList == old(normList)
      ensures AxisCombo() == old(AxisCombo())
      ensures Valid()
      ensures axisSelected == TagOfLabel(tables, CurrentText(axisItems, axisIndex))
      ensures ActionCombo() == (ActionMenu(tables, axisSelected), 0)
      ensures unitItems == UnitItems(tables, axisSelected, axesList, normList)
      ensures unitIndex == Select(unitItems, 0)
      ensures norm == LastKeyOf(tables.normNames, CurrentText(unitItems, unitIndex))
    {
      UpdateAxis();
      actionIndex := Select(actionItems, 0);
      SetUnit();
    }
  }
}
