/**
 * The fixed roulette catalog of the wheel (`wheelData`, src/App.jsx) and the way a
 * spin click turns one `Math.random()` draw into a segment index.
 */
module Wheel {

  /** The segment labels in wheel order. Index 5 is "21". */
  const Options: seq<string> :=
    ["0", "32", "15", "19", "4", "21", "2", "25",
     "17", "34", "6", "27", "13", "36", "11", "30"]

  /** A value `Math.random()` can return: a real in [0, 1). */
  type Random = u: real | 0.0 <= u < 1.0

  /** `Math.floor(Math.random() * wheelData.length)`: every draw is a segment of the wheel. */
  function DrawIndex(u: Random): (i: int)
    ensures 0 <= i < |Options| == 16
    ensures i as real <= u * |Options| as real < i as real + 1.0
  {
    (u * |Options| as real).Floor
  }

  /** The label the increment request carries for a segment, `wheelData[i].option`: a decimal numeral. */
  function ValueAt(i: int): (v: string)
    requires 0 <= i < |Options|
    ensures v in Options
    ensures 1 <= |v| <= 2 && forall k :: 0 <= k < |v| ==> '0' <= v[k] <= '9'
  {
    Options[i]
  }

  /** No two segments carry the same label, so a reported value names the segment it came from. */
  lemma LabelsIdentifySegments(i: int, j: int)
    requires 0 <= i < |Options| && 0 <= j < |Options|
    requires ValueAt(i) == ValueAt(j)
    ensures i == j
  {
  }
}
