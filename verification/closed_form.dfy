/**
 What the scan computes, stated without the scan: counts of positions in the
 input. These are the reference definitions the fold is proved against.
 */
module ClosedForm {
  import opened Whitespace
  import opened Counter

  /** Positions holding a non-space character. */
  function NonSpacePositions(s: seq<char>): (r: set<int>)
  {
    set i | 0 <= i < |s| && !IsSpace(s[i])
  }

  /** Positions `i` where a word is left: `s[i - 1]` is not white space and
      `s[i]` is. */
  function WordEndPositions(s: seq<char>): (r: set<int>)
  {
    set i {:trigger s[i]} | 1 <= i < |s| && !IsSpace(s[i - 1]) && IsSpace(s[i])
  }

  /** Positions where a maximal run of non-space characters begins, one per
      word of the input whether or not white space follows it. */
  function WordStartPositions(s: seq<char>): (r: set<int>)
  {
    set i {:trigger s[i]} | 0 <= i < |s| && !IsSpace(s[i]) && (i == 0 || IsSpace(s[i - 1]))
  }

  /** The number of words the scan knows about: the completed ones plus the
      one in progress. */
  function FlushedWords(st: State): (r: nat)
  {
    st.words + if st.inWord then 1 else 0
  }

  lemma NonSpacePositionsSnoc(s: seq<char>, c: char)
    ensures NonSpacePositions(s + [c]) ==
      NonSpacePositions(s) + (if IsSpace(c) then {} else {|s|})
    ensures |s| !in NonSpacePositions(s)
  {
    var t := s + [c];
    forall i | 0 <= i < |s|
      ensures t[i] == s[i]
    {
    }
  }

  lemma WordEndPositionsSnoc(s: seq<char>, c: char)
    ensures WordEndPositions(s + [c]) ==
      WordEndPositions(s) +
      (if |s| > 0 && !IsSpace(s[|s| - 1]) && IsSpace(c) then {|s|} else {})
    ensures |s| !in WordEndPositions(s)
  {
    var t := s + [c];
    forall i | 0 <= i < |s|
      ensures t[i] == s[i]
    {
    }
  }

  lemma WordStartPositionsSnoc(s: seq<char>, c: char)
    ensures WordStartPositions(s + [c]) ==
      WordStartPositions(s) +
      (if !IsSpace(c) && (|s| == 0 || IsSpace(s[|s| - 1])) then {|s|} else {})
    ensures |s| !in WordStartPositions(s)
  {
    var t := s + [c];
    forall i | 0 <= i < |s|
      ensures t[i] == s[i]
    {
    }
  }

  /** The scan's results in closed form: `num_chars` is the number of
      non-space elements, `num_words` the number of places where a space
      follows a non-space element, and the completed words plus the one in
      progress are the maximal runs of non-space characters. */
  lemma {:induction false} CountClosedForm(s: seq<char>)
    ensures Count(s).chars == |NonSpacePositions(s)|
    ensures Count(s).words == |WordEndPositions(s)|
    ensures FlushedWords(Count(s)) == |WordStartPositions(s)|
    decreases |s|
  {
    if |s| == 0 {
      assert NonSpacePositions(s) == {};
      assert WordEndPositions(s) == {};
      assert WordStartPositions(s) == {};
    } else {
      var p, c := s[..|s| - 1], s[|s| - 1];
      assert s == p + [c];
      CountClosedForm(p);
      RunSnoc(Initial, p, c);
      CountInWord(p);
      NonSpacePositionsSnoc(p, c);
      WordEndPositionsSnoc(p, c);
      WordStartPositionsSnoc(p, c);
    }
  }

  /** No final flush: a word at the very end of the input, with no white
      space after it, is missing from `num_words`; when the input is empty or
      ends in white space every word is counted. */
  lemma TrailingWordNotCounted(s: seq<char>)
    ensures |s| > 0 && !IsSpace(s[|s| - 1]) ==>
      Count(s).words + 1 == |WordStartPositions(s)|
    ensures |s| == 0 || IsSpace(s[|s| - 1]) ==>
      Count(s).words == |WordStartPositions(s)|
  {
    CountClosedForm(s);
    CountInWord(s);
  }
}
