/**
 * The data extractor of a non-plotted axis: how that axis is collapsed (a slice at one index, a
 * slice of its Fourier dual, or a reduction such as rms), and the slider and value field that pick
 * the slice.
 */
module DataExtraction {
  import opened Common
  import opened PlotTables
  import opened Requests
  import opened Decimal

  /** `type_extraction_dict`: the request text each operation of the menu contributes. */
  const TypeExtraction: map<string, string> := map[
    "slice" := "[",
    "slice (fft)" := "[",
    "rms" := "=rms",
    "rss" := "=rss",
    "sum" := "=sum",
    "mean" := "=mean"
  ]

  predicate IsReduction(op: string) { op == "rms" || op == "rss" || op == "sum" || op == "mean" }

  /** The operations that have an entry in `type_extraction_dict`, and the text each contributes. */
  lemma TypeExtractionKeys(op: string)
    ensures op in TypeExtraction <==> op == "slice" || op == "slice (fft)" || IsReduction(op)
    ensures op == "slice" || op == "slice (fft)" ==> TypeExtraction[op] == "["
    ensures IsReduction(op) ==> TypeExtraction[op] == "=" + op
  {
  }

  // ---------------------------------------------------------------- the request string

  /**
   * `get_operation_selected`: the extraction request for the current operation, slider index and
   * unit; no request for an operation without an entry (such as "overlay/filter").
   */
  function ExtractionString(t: Tables, op: string, axisName: string, sliceIndex: nat, unit: string)
    : (r: Option<string>)
    requires op == "slice (fft)" ==> axisName in t.fft
    ensures r.None? <==> op !in TypeExtraction
    ensures op == "slice" ==> r == Some(FormatExtraction(Slice(axisName, sliceIndex, unit)))
    ensures op == "slice (fft)" ==> r == Some(FormatExtraction(FftSlice(t.fft[axisName], sliceIndex)))
    ensures IsReduction(op) ==> r == Some(FormatExtraction(Reduction(axisName, op, unit)))
  {
    if op in TypeExtraction then
      if op == "slice" then
        var action := TypeExtraction[op] + NatToString(sliceIndex) + "]";
        var s := axisName + action + "{" + unit + "}";
        assert s == FormatExtraction(Slice(axisName, sliceIndex, unit)) by {
          SliceText(axisName, NatToString(sliceIndex), unit);
        }
        Some(s)
      else if op == "slice (fft)" then
        var action := TypeExtraction[op] + NatToString(sliceIndex) + "]";
        assert t.fft[axisName] + action == FormatExtraction(FftSlice(t.fft[axisName], sliceIndex));
        Some(t.fft[axisName] + action)
      else
        assert TypeExtraction[op] == "=" + op;
        var s := axisName + TypeExtraction[op] + "{" + unit + "}";
        assert s == FormatExtraction(Reduction(axisName, op, unit)) by {
          ReductionText(axisName, op, unit);
        }
        Some(s)
    else None
  }

  lemma SliceText(a: string, digits: string, u: string)
    ensures a + ("[" + digits + "]") + "{" + u + "}" == a + "[" + digits + "]" + "{" + u + "}"
  {
  }

  lemma ReductionText(a: string, op: string, u: string)
    ensures a + ("=" + op) + "{" + u + "}" == a + "=" + op + "{" + u + "}"
  {
  }

  /** The extraction a menu operation stands for, when it has one. */
  function ExtractionOf(t: Tables, op: string, axisName: string, sliceIndex: nat, unit: string)
    : (r: Option<Extraction>)
    requires op == "slice (fft)" ==> axisName in t.fft
    ensures r.Some? <==> op in TypeExtraction
    ensures r.Some? ==> (r.value.Slice? <==> op == "slice") && (r.value.FftSlice? <==> op == "slice (fft)")
    ensures r.Some? && r.value.Reduction? ==> r.value.op == op && r.value.axis == axisName
    ensures r.Some? && !r.value.Reduction? ==> r.value.index == sliceIndex
  {
    if op == "slice" then Some(Slice(axisName, sliceIndex, unit))
    else if op == "slice (fft)" then Some(FftSlice(t.fft[axisName], sliceIndex))
    else if IsReduction(op) then Some(Reduction(axisName, op, unit))
    else None
  }

  /** A request string reads back as the extraction its operation stands for. */
  lemma ExtractionStringReadsBack(t: Tables, op: string, axisName: string, sliceIndex: nat, unit: string)
    requires op == "slice (fft)" ==> axisName in t.fft
    requires IsTag(axisName) && (axisName in t.fft ==> IsTag(t.fft[axisName]))
    ensures var r := ExtractionString(t, op, axisName, sliceIndex, unit);
            r.Some? ==> ParseExtraction(r.value) == ExtractionOf(t, op, axisName, sliceIndex, unit)
  {
    var e := ExtractionOf(t, op, axisName, sliceIndex, unit);
    if e.Some? {
      assert e.value.Reduction? ==> '{' !in e.value.op;
      ExtractionRoundTrip(e.value);
    }
  }

  /** Two worked requests: a slice of the angle in degrees and the rms over time. */
  lemma ExampleRequests(t: Tables)
    ensures ExtractionString(t, "slice", "angle", 3, "°") == Some("angle[3]{°}")
    ensures ExtractionString(t, "rms", "time", 0, "s") == Some("time=rms{s}")
    ensures ExtractionString(t, "overlay/filter", "time", 0, "s") == None
  {
    assert NatToString(3) == "3";
    assert ExtractionString(t, "slice", "angle", 3, "°") == Some(FormatExtraction(Slice("angle", 3, "°")));
    assert ExtractionString(t, "rms", "time", 0, "s") == Some(FormatExtraction(Reduction("time", "rms", "s")));
    assert FormatExtraction(Slice("angle", 3, "°")) == "angle" + "[" + "3" + "]" + "{" + "°" + "}";
    assert FormatExtraction(Reduction("time", "rms", "s")) == "time" + "=" + "rms" + "{" + "s" + "}";
    assert "angle" + "[" + "3" + "]" + "{" + "°" + "}" == "angle[3]{°}";
    assert "time" + "=" + "rms" + "{" + "s" + "}" == "time=rms{s}";
  }

  // ---------------------------------------------------------------- layout

  /** Which controls are shown: the slider with the value field, and the action button. */
  datatype Layout = Layout(sliceControls: bool, actionButton: bool)

  /** `update_layout` for the current operation text. */
  function LayoutFor(op: string): (r: Layout)
    ensures r.sliceControls <==> op == "slice" || op == "slice (fft)"
    ensures r.actionButton <==> op == "overlay/filter"
  {
    Layout(op == "slice" || op == "slice (fft)", op == "overlay/filter")
  }

  /** The slice controls and the action button are never shown together. */
  lemma LayoutExclusive(op: string)
    ensures !(LayoutFor(op).sliceControls && LayoutFor(op).actionButton)
  {
  }

  /**
   * The slider is shown exactly when the request reads as a slice, and the action button only
   * when there is no request at all.
   */
  lemma LayoutMatchesRequest(t: Tables, op: string, axisName: string, sliceIndex: nat, unit: string)
    requires op == "slice (fft)" ==> axisName in t.fft
    requires IsTag(axisName) && (axisName in t.fft ==> IsTag(t.fft[axisName]))
    ensures var r := ExtractionString(t, op, axisName, sliceIndex, unit);
            && (LayoutFor(op).sliceControls <==>
                  r.Some? && ParseExtraction(r.value).Some? && !ParseExtraction(r.value).value.Reduction?)
            && (LayoutFor(op).actionButton ==> r.None?)
  {
    ExtractionStringReadsBack(t, op, axisName, sliceIndex, unit);
  }

  // ---------------------------------------------------------------- the slider

  /** Where `set_slider` puts the slider: a negative index counts back from the maximum. */
  function SliderTarget(index: int, maximum: int): (r: int)
    ensures index >= 0 ==> r == index
    ensures index < 0 ==> r == maximum + index && r < maximum
  {
    if index >= 0 then index else maximum + index
  }

  /** The target is a slider position exactly for `-maximum <= index <= maximum`. */
  lemma SliderTargetInRange(index: int, maximum: int)
    ensures 0 <= SliderTarget(index, maximum) <= maximum <==> -maximum <= index <= maximum
  {
  }

  /** With the maximum at the last index, -1 lands on the one before the last. */
  lemma MinusOneIsNextToLast(values: seq<real>)
    requires |values| >= 2
    ensures SliderTarget(-1, |values| - 1) == |values| - 2
    ensures SliderTarget(-1, |values| - 1) != |values| - 1
  {
  }

  function Dist(a: real, b: real): real { if a >= b then a - b else b - a }

  /** `k` is the first index whose value is nearest to `x` (numpy's argmin of the distances). */
  predicate IsFirstNearest(values: seq<real>, x: real, k: int) {
    && 0 <= k < |values|
    && (forall j :: 0 <= j < |values| ==> Dist(values[k], x) <= Dist(values[j], x))
    && (forall j :: 0 <= j < k ==> Dist(values[j], x) > Dist(values[k], x))
  }

  /** The argmin scan of `update_slider`. */
  method NearestIndex(values: seq<real>, x: real) returns (k: nat)
    requires |values| > 0
    ensures IsFirstNearest(values, x, k)
  {
    k := 0;
    var i := 1;
    while i < |values|
      invariant 1 <= i <= |values| && k < i
      invariant forall j :: 0 <= j < i ==> Dist(values[k], x) <= Dist(values[j], x)
      invariant forall j :: 0 <= j < k ==> Dist(values[j], x) > Dist(values[k], x)
    {
      if Dist(values[i], x) < Dist(values[k], x) {
        k := i;
      }
      i := i + 1;
    }
  }

  /** There is only one first nearest index. */
  lemma FirstNearestUnique(values: seq<real>, x: real, k1: int, k2: int)
    requires IsFirstNearest(values, x, k1) && IsFirstNearest(values, x, k2)
    ensures k1 == k2
  {
    assert Dist(values[k1], x) <= Dist(values[k2], x);
    assert Dist(values[k2], x) <= Dist(values[k1], x);
  }

  /** Writing the chosen value back into the field chooses the same index again. */
  lemma NearestIsFixedPoint(values: seq<real>, x: real, k: int)
    requires IsFirstNearest(values, x, k)
    ensures IsFirstNearest(values, values[k], k)
  {
    forall j | 0 <= j < k
      ensures Dist(values[j], values[k]) > Dist(values[k], values[k])
    {
      assert Dist(values[j], x) > Dist(values[k], x);
      assert values[j] != values[k];
    }
  }

  /** A typed axis value selects its own index unless an earlier sample holds the same value. */
  lemma NearestOfSample(values: seq<real>, k: int)
    requires 0 <= k < |values|
    ensures IsFirstNearest(values, values[k], k) <==> values[k] !in values[..k]
  {
    if values[k] in values[..k] {
      var j :| 0 <= j < k && values[..k][j] == values[k];
      assert Dist(values[j], values[k]) == 0.0;
    } else {
      forall j | 0 <= j < k
        ensures Dist(values[j], values[k]) > Dist(values[k], values[k])
      {
        assert values[..k][j] == values[j];
      }
    }
  }

  /** Python's `min` of a non-empty list. */
  function Min(s: seq<real>): (r: real)
    requires |s| > 0
    ensures r in s && forall x :: x in s ==> r <= x
  {
    if |s| == 1 then s[0]
    else
      var m := Min(s[1..]);
      assert forall x :: x in s ==> x == s[0] || x in s[1..];
      if s[0] <= m then s[0] else m
  }

  // ---------------------------------------------------------------- the operation menu

  /** The scan of `set_operation`: stop at the first match, else end on the last item. */
  method SelectOperationIndex(ops: seq<string>, op: string, current: int) returns (index: int)
    ensures ops == [] ==> index == current
    ensures ops != [] && op in ops ==> 0 <= index < |ops| && ops[index] == op && op !in ops[..index]
    ensures ops != [] && op !in ops ==> index == |ops| - 1
  {
    index := current;
    var i := 0;
    while i < |ops|
      invariant 0 <= i <= |ops|
      invariant op !in ops[..i]
      invariant i > 0 ==> index == i - 1
      invariant i == 0 ==> index == current
    {
      index := i;
      if ops[i] == op {
        return;
      }
      assert ops[..i + 1] == ops[..i] + [ops[i]];
      i := i + 1;
    }
    assert ops[..i] == ops;
  }

  /** `set_operation` reads "single" as a slice and "list" as the overlay/filter operation. */
  function NormalizedOperation(extension: string): (r: string)
    ensures extension == "single" ==> r == "slice"
    ensures extension == "list" ==> r == "overlay/filter"
    ensures extension != "single" && extension != "list" ==> r == extension
  {
    if extension == "single" then "slice"
    else if extension == "list" then "overlay/filter"
    else extension
  }

  const FftSliceItem: string := "slice (fft)"

  /** The menu holds `x` once at most. */
  predicate AtMostOnce(ops: seq<string>, x: string) {
    multiset(ops)[x] <= 1
  }

  /** Dropping the one "slice (fft)" item leaves the others, in order, and no such item. */
  lemma DropFftSlice(ops: seq<string>)
    requires FftSliceItem in ops
    ensures multiset(RemoveFirst(ops, FftSliceItem)) + multiset{FftSliceItem} == multiset(ops)
    ensures Without(RemoveFirst(ops, FftSliceItem), FftSliceItem) == Without(ops, FftSliceItem)
  {
    RemoveKeepsOthers(ops, FftSliceItem);
    var i := IndexOf(ops, FftSliceItem);
    SplitAt(ops, i);
  }

  /** Inserting "slice (fft)" at position 1 puts it there (at 0 in an empty menu) and moves nothing else. */
  lemma AddFftSlice(ops: seq<string>)
    ensures multiset(Insert(ops, 1, FftSliceItem)) == multiset(ops) + multiset{FftSliceItem}
    ensures Insert(ops, 1, FftSliceItem)[if ops == [] then 0 else 1] == FftSliceItem
    ensures Without(Insert(ops, 1, FftSliceItem), FftSliceItem) == Without(ops, FftSliceItem)
  {
    InsertKeepsOthers(ops, 1, FftSliceItem);
    var k := if 1 <= |ops| then 1 else |ops|;
    assert ops == ops[..k] + ops[k..];
  }

  /** How `update` adjusts the operation menu to the axis: "slice (fft)" only for an axis with a dual. */
  function AdjustOperations(t: Tables, ops: seq<string>, name: string): (r: seq<string>)
    ensures name in t.fft ==> FftSliceItem in r
    ensures name !in t.fft && AtMostOnce(ops, FftSliceItem) ==> FftSliceItem !in r
    ensures AtMostOnce(ops, FftSliceItem) ==> AtMostOnce(r, FftSliceItem)
    ensures FftSliceItem !in ops && name in t.fft ==> |r| == |ops| + 1
    ensures FftSliceItem !in ops && name in t.fft ==> r[if ops == [] then 0 else 1] == FftSliceItem
    ensures Without(r, FftSliceItem) == Without(ops, FftSliceItem)
    ensures (FftSliceItem in ops <==> name in t.fft) ==> r == ops
  {
    if FftSliceItem in ops && name !in t.fft then
      DropFftSlice(ops);
      RemoveFirst(ops, FftSliceItem)
    else if FftSliceItem !in ops && name in t.fft then
      AddFftSlice(ops);
      Insert(ops, 1, FftSliceItem)
    else ops
  }

  // ---------------------------------------------------------------- the widget

  /** The axis handed to `update`: its values in SI units and converted to degrees. */
  datatype ExtractorAxis = ExtractorAxis(name: string, unit: string, values: seq<real>,
                                         valuesInDegrees: seq<real>)

  /** The values `set_slider_floatedit` slices over: degrees for the angle. */
  function SliceValues(a: ExtractorAxis): (r: seq<real>)
    ensures a.name == "angle" ==> r == a.valuesInDegrees
    ensures a.name != "angle" ==> r == a.values
  {
    if a.name == "angle" then a.valuesInDegrees else a.values
  }

  /** The part of a requested axis that `set_operation` reads. */
  datatype RequestedExtraction = RequestedExtraction(name: string, extension: string, indices: seq<int>)

  class DataExtractor {
    const tables: Tables
    var name: string                  // name
    var nameText: string              // in_name
    var axis: Option<ExtractorAxis>   // axis (None until the first update)
    var unit: string                  // unit
    var axisValue: seq<real>          // axis_value (empty until the first update)
    var operations: seq<string>       // c_operation
    var operationIndex: int
    var sliderMaximum: int            // slider; its minimum is always 0
    var sliderValue: int
    var floatValue: real              // lf_value
    var layout: Layout
    var actionText: string            // b_action

    ghost predicate Valid()
      reads this
    {
      && WellFormed(tables)
      && -1 <= operationIndex < |operations|
      && AtMostOnce(operations, FftSliceItem)
      && 0 <= sliderValue <= sliderMaximum
      && (axisValue != [] ==> sliderMaximum == |axisValue| - 1)
    }

    function Operation(): string reads this { CurrentText(operations, operationIndex) }

    /** The operation combobox starts with the items of the widget's form; the slider spans 0..99. */
    constructor (t: Tables, operations0: seq<string>)
      requires WellFormed(t) && AtMostOnce(operations0, FftSliceItem)
      ensures Valid() && tables == t && name == "angle" && axis == None && axisValue == []
      ensures operations == operations0 && operationIndex == Select(operations0, 0)
      ensures sliderMaximum == 99 && sliderValue == 0
    {
      tables := t;
      name, nameText := "angle", "";
      axis, unit, axisValue := None, "", [];
      operations, operationIndex := operations0, Select(operations0, 0);
      sliderMaximum, sliderValue := 99, 0;
      floatValue := 0.0;
      layout, actionText := Layout(true, true), "";
    }

    function GetOperationSelected(): (r: Option<string>)
      reads this
      requires Valid() && axis.Some?
      requires Operation() == "slice (fft)" ==> axis.value.name in tables.fft
      ensures r == ExtractionString(tables, Operation(), axis.value.name, sliderValue, unit)
    {
      ExtractionString(tables, Operation(), axis.value.name, sliderValue, unit)
    }

    method SetName(n: string)
      requires Valid()
      modifies this
      ensures Valid() && name == n && nameText == Label(tables, n)
      ensures axis == old(axis) && unit == old(unit) && axisValue == old(axisValue)
      ensures operations == old(operations) && operationIndex == old(operationIndex)
      ensures sliderMaximum == old(sliderMaximum) && sliderValue == old(sliderValue)
      ensures floatValue == old(floatValue) && layout == old(layout) && actionText == old(actionText)
    {
      nameText := Label(tables, n);
      name := n;
    }

    method UpdateLayout()
      requires Valid()
      modifies this
      ensures Valid() && layout == LayoutFor(Operation())
      ensures actionText == if layout.actionButton then Operation() else old(actionText)
      ensures name == old(name) && nameText == old(nameText)
      ensures axis == old(axis) && unit == old(unit) && axisValue == old(axisValue)
      ensures operations == old(operations) && operationIndex == old(operationIndex)
      ensures sliderMaximum == old(sliderMaximum) && sliderValue == old(sliderValue)
      ensures floatValue == old(floatValue)
    {
      var op := CurrentText(operations, operationIndex);
      layout := LayoutFor(op);
      if op == "overlay/filter" {
        actionText := op;
      }
    }

    method UpdateFloatEdit()
      requires Valid() && sliderValue < |axisValue|
      modifies this
      ensures Valid()
      ensures name == old(name) && nameText == old(nameText)
      ensures axis == old(axis) && unit == old(unit) && axisValue == old(axisValue)
      ensures operations == old(operations) && operationIndex == old(operationIndex)
      ensures sliderMaximum == old(sliderMaximum) && sliderValue == old(sliderValue)
      ensures layout == old(layout) && actionText == old(actionText)
      ensures floatValue == axisValue[sliderValue]
    {
      floatValue := axisValue[sliderValue];
    }

    /** Places the slider (no clamping: the target must be a slider position) and shows its value. */
    method SetSlider(index: int)
      requires Valid() && axisValue != []
      requires 0 <= SliderTarget(index, sliderMaximum) <= sliderMaximum
      modifies this
      ensures Valid()
      ensures name == old(name) && nameText == old(nameText)
      ensures axis == old(axis) && unit == old(unit) && axisValue == old(axisValue)
      ensures operations == old(operations) && operationIndex == old(operationIndex)
      ensures sliderMaximum == old(sliderMaximum)
      ensures layout == old(layout) && actionText == old(actionText)
      ensures sliderValue == SliderTarget(index, old(sliderMaximum))
      ensures floatValue == axisValue[sliderValue]
    {
      sliderValue := SliderTarget(index, sliderMaximum);
      UpdateFloatEdit();
    }

    /** Loads the axis values, starts the field on their minimum and spans the slider over them. */
    method SetSliderFloatEdit()
      requires Valid() && axis.Some? && SliceValues(axis.value) != []
      modifies this
      ensures name == old(name) && nameText == old(nameText)
      ensures operations == old(operations) && operationIndex == old(operationIndex)
      ensures layout == old(layout) && actionText == old(actionText)
      ensures Valid() && axis == old(axis)
      ensures axisValue == SliceValues(axis.value)
      ensures unit == if axis.value.name == "angle" then "°" else old(unit)
      ensures floatValue == Min(axisValue) && floatValue in axisValue
      ensures forall v :: v in axisValue ==> floatValue <= v
      ensures sliderMaximum == |axisValue| - 1
      ensures sliderValue == if old(sliderValue) <= sliderMaximum then old(sliderValue) else sliderMaximum
    {
      var a := axis.value;
      var values := if a.name == "angle" then a.valuesInDegrees else a.values;
      if a.name == "angle" {
        unit := "°";
      }
      var last := |values| - 1;
      axisValue, floatValue, sliderMaximum := values, Min(values), last;
      if sliderValue > last {
        sliderValue := last;
      }
    }

    /** Moves the slider to the first sample nearest to the typed value and shows that sample. */
    method UpdateSlider()
      requires Valid() && axisValue != []
      modifies this
      ensures Valid()
      ensures name == old(name) && nameText == old(nameText)
      ensures axis == old(axis) && unit == old(unit) && axisValue == old(axisValue)
      ensures operations == old(operations) && operationIndex == old(operationIndex)
      ensures sliderMaximum == old(sliderMaximum)
      ensures layout == old(layout) && actionText == old(actionText)
      ensures IsFirstNearest(axisValue, old(floatValue), sliderValue)
      ensures floatValue == axisValue[sliderValue]
      ensures IsFirstNearest(axisValue, floatValue, sliderValue)
    {
      var index := NearestIndex(axisValue, floatValue);
      NearestIsFixedPoint(axisValue, floatValue, index);
      sliderValue := index;
      floatValue := axisValue[index];
    }

    /** Binds the widget to a requested extraction: its name, its operation and, for a slice, its index. */
    method SetOperation(input: RequestedExtraction)
      requires Valid()
      requires NormalizedOperation(input.extension) == "slice" ==>
                 && |input.indices| > 0 && axisValue != []
                 && 0 <= SliderTarget(input.indices[0], sliderMaximum) <= sliderMaximum
      modifies this
      ensures Valid() && name == input.name && nameText == Label(tables, input.name)
      ensures axis == old(axis) && unit == old(unit) && axisValue == old(axisValue)
      ensures operations == old(operations) && sliderMaximum == old(sliderMaximum)
      ensures var op := NormalizedOperation(input.extension);
              && (operations != [] && op in operations ==>
                    && 0 <= operationIndex < |operations| && operations[operationIndex] == op
                    && op !in operations[..operationIndex])
              && (operations != [] && op !in operations ==> operationIndex == |operations| - 1)
              && (operations == [] ==> operationIndex == old(operationIndex))
              && layout == LayoutFor(Operation())
              && actionText == (if layout.actionButton then Operation() else old(actionText))
              && (op == "slice" ==> sliderValue == SliderTarget(input.indices[0], sliderMaximum) &&
                                    floatValue == axisValue[sliderValue])
              && (op != "slice" ==> sliderValue == old(sliderValue) && floatValue == old(floatValue))
    {
      SetName(input.name);
      var op := NormalizedOperation(input.extension);
      operationIndex := SelectOperationIndex(operations, op, operationIndex);
      UpdateLayout();
      if op == "slice" {
        SetSlider(input.indices[0]);
      }
    }

    /** Binds the widget to an axis and adjusts the operation menu to whether it has a dual. */
    method Update(a: ExtractorAxis)
      requires Valid() && SliceValues(a) != []
      modifies this
      ensures Valid()
      ensures axis == Some(a) && name == a.name && nameText == Label(tables, a.name)
      ensures unit == if a.name == "angle" then "°" else a.unit
      ensures axisValue == SliceValues(a) && floatValue == Min(axisValue)
      ensures sliderMaximum == |axisValue| - 1
      ensures sliderValue == if old(sliderValue) <= sliderMaximum then old(sliderValue) else sliderMaximum
      ensures layout == LayoutFor(old(Operation()))
      ensures actionText == if layout.actionButton then old(Operation()) else old(actionText)
      ensures operations == AdjustOperations(tables, old(operations), a.name)
      ensures operationIndex == Select(operations, 0)
      ensures FftSliceItem in operations <==> a.name in tables.fft
    {
      axis := Some(a);
      unit := a.unit;
      SetName(a.name);
      UpdateLayout();
      SetSliderFloatEdit();
      RefreshOperations(a.name);
    }

    /** Reads the operation items back, adds or drops `"slice (fft)"` for axis `n`, and refills the menu. */
    method RefreshOperations(n: string)
      requires Valid()
      modifies this
      ensures Valid()
      ensures name == old(name) && nameText == old(nameText)
      ensures axis == old(axis) && unit == old(unit) && axisValue == old(axisValue)
      ensures sliderMaximum == old(sliderMaximum) && sliderValue == old(sliderValue)
      ensures floatValue == old(floatValue) && layout == old(layout) && actionText == old(actionText)
      ensures operations == AdjustOperations(tables, old(operations), n)
      ensures operationIndex == Select(operations, 0)
      ensures FftSliceItem in operations <==> n in tables.fft
    {
      var items := operations;
      var operationList: seq<string> := [];
      for i := 0 to |items|
        invariant operationList == items[..i]
      {
        operationList := operationList + [CurrentText(items, Select(items, i))];
      }
      assert items[..|items|] == items;
      operations := AdjustOperations(tables, operationList, n);
      operationIndex := Select(operations, 0);
    }
  }
}
