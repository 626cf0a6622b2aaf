/**
 * The lookup tables of `SciDataTool.Functions.Plot` that both widgets consult. Their contents live
 * outside the modelled files, so they are a value handed to each widget.
 */
module PlotTables {
  import opened Common

  /** A Python dict whose iteration order matters: its (key, value) entries in insertion order. */
  type Table = seq<(string, string)>

  function Keys(d: Table): (r: seq<string>)
    ensures |r| == |d| && forall i :: 0 <= i < |d| ==> r[i] == d[i].0
  {
    seq(|d|, i requires 0 <= i < |d| => d[i].0)
  }

  function Values(d: Table): (r: seq<string>)
    ensures |r| == |d| && forall i :: 0 <= i < |d| ==> r[i] == d[i].1
  {
    seq(|d|, i requires 0 <= i < |d| => d[i].1)
  }

  predicate DistinctKeys(d: Table) {
    forall i, j :: 0 <= i < j < |d| ==> d[i].0 != d[j].0
  }

  /** `d[k]`. */
  function Lookup(d: Table, k: string): (v: string)
    requires k in Keys(d)
    ensures (k, v) in d
  {
    d[IndexOf(Keys(d), k)].1
  }

  /** `[key for key in d][[d[key] for key in d].index(v)]` when `v` is a value of `d`. */
  function FirstKeyOf(d: Table, v: string): (r: Option<string>)
    ensures r.None? <==> v !in Values(d)
    ensures r.Some? ==> exists i :: 0 <= i < |d| && d[i] == (r.value, v) && v !in Values(d[..i])
  {
    if v in Values(d) then
      var i := IndexOf(Values(d), v);
      assert Values(d[..i]) == Values(d)[..i];
      Some(d[i].0)
    else None
  }

  /** The position of the last entry of `d` whose value is `v`, or -1. */
  function LastIndexOf(d: Table, v: string): (i: int)
    ensures -1 <= i < |d|
    ensures i >= 0 ==> d[i].1 == v
    ensures forall j :: i < j < |d| ==> d[j].1 != v
  {
    if d == [] then -1
    else if d[|d| - 1].1 == v then |d| - 1
    else LastIndexOf(d[..|d| - 1], v)
  }

  /** The key of the LAST entry of `d` whose value is `v`. */
  function LastKeyOf(d: Table, v: string): (r: Option<string>)
    ensures r.None? <==> forall i :: 0 <= i < |d| ==> d[i].1 != v
    ensures r.Some? ==> exists i :: 0 <= i < |d| && d[i] == (r.value, v) &&
                         forall j :: i < j < |d| ==> d[j].1 != v
  {
    var i := LastIndexOf(d, v);
    if i < 0 then None
    else
      assert d[i] == (d[i].0, v);
      Some(d[i].0)
  }

  datatype Tables = Tables(
    fft: map<string, string>,        // fft_dict: time/angle tag -> its Fourier dual
    ifft: map<string, string>,       // ifft_dict: dual tag -> time/angle tag
    axes: Table,                     // axes_dict: tag -> label shown in a combobox
    units: map<string, string>,      // unit_dict: tag -> declared unit
    normNames: Table,                // norm_name_dict: normalization key -> label
    axisNorms: map<string, seq<string>>  // axis_norm_dict: tag -> normalization keys it accepts
  )

  /** `ifft_dict` undoes `fft_dict` and the other way round. */
  predicate IsInverse(fft: map<string, string>, ifft: map<string, string>) {
    && (forall k :: k in fft ==> fft[k] in ifft && ifft[fft[k]] == k)
    && (forall k :: k in ifft ==> ifft[k] in fft && fft[ifft[k]] == k)
  }

  /**
   * What the widgets take for granted about the tables: the two transform maps are inverse to
   * each other, no tag is both a base and a dual, the sentinel "None" is neither, and the ordered
   * dicts have distinct keys (as every Python dict does).
   */
  predicate WellFormed(t: Tables) {
    && IsInverse(t.fft, t.ifft)
    && t.fft.Keys !! t.ifft.Keys
    && "None" !in t.fft && "None" !in t.ifft
    && DistinctKeys(t.axes) && DistinctKeys(t.normNames)
  }

  /** The base (time/angle) tag of a name: duals fold back through `ifft_dict`. */
  function BaseTag(t: Tables, name: string): (r: string)
    requires WellFormed(t)
    ensures r !in t.ifft
    ensures name !in t.ifft ==> r == name
    ensures name in t.ifft ==> r in t.fft && t.fft[r] == name
  {
    if name in t.ifft then t.ifft[name] else name
  }

  /** The text shown for a tag: its `axes_dict` label when it has one, else the tag itself. */
  function Label(t: Tables, tag: string): (r: string)
    ensures tag in Keys(t.axes) ==> (tag, r) in t.axes
    ensures tag !in Keys(t.axes) ==> r == tag
  {
    if tag in Keys(t.axes) then Lookup(t.axes, tag) else tag
  }

  /** The tag behind a combobox text: the first key labelled so, else the text itself. */
  function TagOfLabel(t: Tables, text: string): (r: string)
    ensures text in Values(t.axes) ==>
              exists i :: 0 <= i < |t.axes| && t.axes[i] == (r, text) && text !in Values(t.axes[..i])
    ensures text !in Values(t.axes) ==> r == text
  {
    match FirstKeyOf(t.axes, text)
    case Some(k) => k
    case None => text
  }

  /** Labels that are told apart, and a bare tag that is never mistaken for another tag's label. */
  predicate LabelsFaithful(t: Tables, tag: string) {
    && (forall i, j :: 0 <= i < j < |t.axes| ==> t.axes[i].1 != t.axes[j].1)
    && (tag !in Keys(t.axes) ==> tag !in Values(t.axes))
  }

  /** Showing a tag's label and reading the tag back from that text gives the tag again. */
  lemma TagOfLabelOfTag(t: Tables, tag: string)
    requires WellFormed(t) && LabelsFaithful(t, tag)
    ensures TagOfLabel(t, Label(t, tag)) == tag
  {
    var text := Label(t, tag);
    if tag in Keys(t.axes) {
      var i := IndexOf(Keys(t.axes), tag);
      assert t.axes[i] == (tag, text);
      assert text in Values(t.axes) by { assert Values(t.axes)[i] == text; }
      var k := TagOfLabel(t, text);
      var j :| 0 <= j < |t.axes| && t.axes[j] == (k, text);
      assert i == j;
    }
  }
}
