/**
 * Text helpers of the graph view: `formatText` and `labelFormatter`
 * shorten long labels, and `descendCompare` orders node models by one
 * numeric property, largest first.
 */
module Labels {
  import opened Wrappers

  const DefaultFormatLength := 5
  const DefaultEllipsis := "..."
  const DefaultLabelLength := 10

  /**
   * `formatText`: the empty text gives the empty text; a text longer than
   * `length` is cut to its first `length` characters followed by the
   * ellipsis; a shorter text is returned as it is.
   */
  function FormatText(text: string, length: nat, ellipsis: string): (r: string)
    ensures |text| <= length ==> r == text
    ensures |text| > length ==> |r| == length + |ellipsis| && r[..length] == text[..length] && r[length..] == ellipsis
  {
    if text == "" then ""
    else if |text| > length then text[..length] + ellipsis
    else text
  }

  /** `labelFormatter`: like `formatText` with the "..." ellipsis. */
  function LabelFormatter(text: string, minLength: nat): (r: string)
    ensures |text| <= minLength ==> r == text
    ensures |text| > minLength ==> |r| == minLength + 3 && r[..minLength] == text[..minLength] && r[minLength..] == DefaultEllipsis
  {
    if text != "" && |text| > minLength then text[..minLength] + "..." else text
  }

  /** The two shorteners agree whenever the ellipsis is "...". */
  lemma LabelFormatterIsFormatText(text: string, minLength: nat)
    ensures LabelFormatter(text, minLength) == FormatText(text, minLength, DefaultEllipsis)
  {
  }

  /**
   * A text comes back unchanged exactly when it is short enough or when it
   * already ends, right after the first `length` characters, in the ellipsis.
   */
  lemma FormatTextUnchanged(text: string, length: nat, ellipsis: string)
    ensures FormatText(text, length, ellipsis) == text <==> |text| <= length || text[length..] == ellipsis
  {
    if |text| > length {
      assert text == text[..length] + text[length..];
      if FormatText(text, length, ellipsis) == text {
        assert text[length..] == FormatText(text, length, ellipsis)[length..];
      }
    }
  }

  /** Shortening a shortened text changes nothing more. */
  lemma FormatTextIdempotent(text: string, length: nat, ellipsis: string)
    ensures FormatText(FormatText(text, length, ellipsis), length, ellipsis) == FormatText(text, length, ellipsis)
  {
    var r := FormatText(text, length, ellipsis);
    FormatTextUnchanged(r, length, ellipsis);
  }

  /**
   * The comparator `descendCompare(p)` applied to two models: the value of
   * `p` in the second minus that in the first, or None (NaN in the source)
   * when either lacks the property.
   */
  function DescendCompare(p: string, m: map<string, int>, n: map<string, int>): (r: Option<int>)
    ensures r.Some? <==> p in m && p in n
    ensures r.Some? ==> (r.value < 0 <==> m[p] > n[p]) && (r.value == 0 <==> m[p] == n[p])
  {
    if p in m && p in n then Some(n[p] - m[p]) else None
  }

  /** The comparator is antisymmetric. */
  lemma DescendCompareAntisymmetric(p: string, m: map<string, int>, n: map<string, int>)
    requires p in m && p in n
    ensures DescendCompare(p, m, n).value == -DescendCompare(p, n, m).value
  {
  }

  /** A list is in comparator order when no pair compares positive. */
  predicate InCompareOrder(p: string, ms: seq<map<string, int>>)
    requires forall i :: 0 <= i < |ms| ==> p in ms[i]
  {
    forall i, j :: 0 <= i < j < |ms| ==> DescendCompare(p, ms[i], ms[j]).value <= 0
  }

  /** Comparator order is exactly non-increasing order of `p`: a sort by `descendCompare(p)` puts the largest first. */
  lemma InCompareOrderIsDescending(p: string, ms: seq<map<string, int>>)
    requires forall i :: 0 <= i < |ms| ==> p in ms[i]
    ensures InCompareOrder(p, ms) <==> forall i, j :: 0 <= i < j < |ms| ==> ms[i][p] >= ms[j][p]
  {
  }
}
