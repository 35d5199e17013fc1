// The FAQ accordion: one expanded flag per question, grouped by section.
module Faq {

  datatype QA = QA(q: string, a: string)
  datatype Section = Section(section: string, questions: seq<QA>)

  /** The expanded flags, one row per section. */
  type Matrix = seq<seq<bool>>

  /** Every row of `m` is as long as the matching section's question list. */
  predicate Shaped(m: Matrix, faqs: seq<Section>) {
    |m| == |faqs| && forall i :: 0 <= i < |m| ==> |m[i]| == |faqs[i].questions|
  }

  /** `faqs.map(section => Array(section.questions.length).fill(false))` */
  function InitialExpansion(faqs: seq<Section>): (m: Matrix)
    ensures Shaped(m, faqs)
    ensures forall i, j :: 0 <= i < |m| && 0 <= j < |m[i]| ==> !m[i][j]
  {
    seq(|faqs|, i requires 0 <= i < |faqs| => seq(|faqs[i].questions|, _ => false))
  }

  /** `arr.map((v, j) => j === qIdx ? !v : v)` */
  function FlipAt(row: seq<bool>, qIdx: int): (r: seq<bool>)
    ensures |r| == |row|
    ensures forall j :: 0 <= j < |row| ==> r[j] == (if j == qIdx then !row[j] else row[j])
  {
    seq(|row|, j requires 0 <= j < |row| => if j == qIdx then !row[j] else row[j])
  }

  /** `handleQuestionToggle(sectionIdx, qIdx)` on the previous matrix. */
  function Toggle(m: Matrix, sectionIdx: int, qIdx: int): (r: Matrix)
    ensures |r| == |m| && forall i :: 0 <= i < |m| ==> |r[i]| == |m[i]|
    ensures forall i, j :: 0 <= i < |m| && 0 <= j < |m[i]| ==>
              r[i][j] == (if i == sectionIdx && j == qIdx then !m[i][j] else m[i][j])
  {
    seq(|m|, i requires 0 <= i < |m| => if i == sectionIdx then FlipAt(m[i], qIdx) else m[i])
  }

  /** A toggle keeps the matrix in the shape of the sections. */
  lemma ToggleKeepsShape(m: Matrix, faqs: seq<Section>, sectionIdx: int, qIdx: int)
    requires Shaped(m, faqs)
    ensures Shaped(Toggle(m, sectionIdx, qIdx), faqs)
  {
  }

  /** Toggling the same question twice restores the matrix. */
  lemma ToggleTwice(m: Matrix, sectionIdx: int, qIdx: int)
    ensures Toggle(Toggle(m, sectionIdx, qIdx), sectionIdx, qIdx) == m
  {
    var r := Toggle(Toggle(m, sectionIdx, qIdx), sectionIdx, qIdx);
    forall i | 0 <= i < |m|
      ensures r[i] == m[i]
    {
      assert |r[i]| == |m[i]|;
    }
  }

  /** Toggles of two questions can be applied in either order. */
  lemma TogglesCommute(m: Matrix, s1: int, q1: int, s2: int, q2: int)
    ensures Toggle(Toggle(m, s1, q1), s2, q2) == Toggle(Toggle(m, s2, q2), s1, q1)
  {
    var a := Toggle(Toggle(m, s1, q1), s2, q2);
    var b := Toggle(Toggle(m, s2, q2), s1, q1);
    forall i | 0 <= i < |m|
      ensures a[i] == b[i]
    {
      assert |a[i]| == |b[i]|;
    }
  }

  /** A toggle outside the matrix changes nothing. */
  lemma ToggleOutside(m: Matrix, sectionIdx: int, qIdx: int)
    requires !(0 <= sectionIdx < |m| && 0 <= qIdx < |m[sectionIdx]|)
    ensures Toggle(m, sectionIdx, qIdx) == m
  {
    var r := Toggle(m, sectionIdx, qIdx);
    forall i | 0 <= i < |m|
      ensures r[i] == m[i]
    {
      assert |r[i]| == |m[i]|;
    }
  }
}
