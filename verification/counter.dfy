/**
 The scan loop of the counter as a state machine. The state is the triple of
 locals the loop updates (`num_chars`, `num_words`, `in_word`); one `Step`
 consumes one element, a byte as `fgetc` returns it, and `Run` folds `Step`
 over a sequence of them from the first to the last, as the loop reads the
 stream.
 */
module Counter {
  import opened Whitespace

  datatype State = State(chars: nat, words: nat, inWord: bool)

  /** Both counters zero and not inside a word, as before the first read. */
  const Initial: State := State(0, 0, false)

  /** The bound the scan keeps: every completed word, and the word in
      progress if any, holds at least one counted character. */
  predicate Valid(st: State)
  {
    st.words + (if st.inWord then 1 else 0) <= st.chars
  }

  /** One loop iteration. A non-space character is counted and enters a word;
      a space completes the current word, if any, and leaves it. */
  function Step(st: State, c: char): (r: State)
    ensures r.inWord <==> !IsSpace(c)
    ensures r.chars == st.chars + 1 <==> !IsSpace(c)
    ensures r.chars == st.chars <==> IsSpace(c)
    ensures r.words == st.words + 1 <==> st.inWord && IsSpace(c)
    ensures r.words == st.words <==> !(st.inWord && IsSpace(c))
    ensures r.chars == st.chars || r.words == st.words
    ensures Valid(st) ==> Valid(r)
  {
    if !IsSpace(c) then
      State(st.chars + 1, st.words, true)
    else
      State(st.chars, if st.inWord then st.words + 1 else st.words, false)
  }

  /** The scan continued from `st` over every element of `s`, in order.
      Each element moves each counter by at most one and never back, and
      the bound `Valid` is kept. */
  function Run(st: State, s: seq<char>): (r: State)
    ensures st.chars <= r.chars <= st.chars + |s|
    ensures st.words <= r.words <= st.words + |s|
    ensures Valid(st) ==> Valid(r)
    decreases |s|
  {
    if |s| == 0 then st else Run(Step(st, s[0]), s[1..])
  }

  /** The state after scanning the whole of `s` from the initial state: at
      most one counted character per element, and completed words plus the
      word in progress never more than the counted characters. */
  function Count(s: seq<char>): (r: State)
    ensures r.chars <= |s|
    ensures r.words + (if r.inWord then 1 else 0) <= r.chars
    ensures r.words <= r.chars
  {
    Run(Initial, s)
  }

  /** Scanning a concatenation is scanning the first part, then the second
      from where the first left off. */
  lemma {:induction false} RunAppend(st: State, s: seq<char>, t: seq<char>)
    ensures Run(st, s + t) == Run(Run(st, s), t)
    decreases |s|
  {
    if |s| == 0 {
      assert s + t == t;
    } else {
      assert (s + t)[1..] == s[1..] + t;
      RunAppend(Step(st, s[0]), s[1..], t);
    }
  }

  /** One more character is one more step. */
  lemma RunSnoc(st: State, s: seq<char>, c: char)
    ensures Run(st, s + [c]) == Step(Run(st, s), c)
  {
    RunAppend(st, s, [c]);
  }

  /** The scan of a prefix one element longer is one step further. */
  lemma CountPrefixStep(s: seq<char>, i: nat)
    requires i < |s|
    ensures Count(s[..i + 1]) == Step(Count(s[..i]), s[i])
  {
    assert s[..i + 1] == s[..i] + [s[i]];
    RunSnoc(Initial, s[..i], s[i]);
  }

  /** The in-word flag is set exactly when the last element read was not
      white space; it is clear for the empty input. */
  lemma {:induction false} CountInWord(s: seq<char>)
    ensures Count(s).inWord <==> |s| > 0 && !IsSpace(s[|s| - 1])
  {
    if |s| > 0 {
      assert s == s[..|s| - 1] + [s[|s| - 1]];
      RunSnoc(Initial, s[..|s| - 1], s[|s| - 1]);
    }
  }

  /** Appending a non-space character adds one counted character and no
      word; appending a space adds no character and completes a word exactly
      when the previous element was not white space. */
  lemma AppendChar(s: seq<char>, c: char)
    ensures !IsSpace(c) ==> Count(s + [c]).chars == Count(s).chars + 1
    ensures !IsSpace(c) ==> Count(s + [c]).words == Count(s).words
    ensures IsSpace(c) ==> Count(s + [c]).chars == Count(s).chars
    ensures IsSpace(c) ==>
      Count(s + [c]).words ==
      Count(s).words + (if |s| > 0 && !IsSpace(s[|s| - 1]) then 1 else 0)
  {
    RunSnoc(Initial, s, c);
    CountInWord(s);
  }

  /** The counters never decrease: a prefix of the input has no more
      characters and no more words than the whole. */
  lemma {:induction false} CountMonotone(s: seq<char>, i: nat)
    requires i <= |s|
    ensures Count(s[..i]).chars <= Count(s).chars
    ensures Count(s[..i]).words <= Count(s).words
    decreases |s| - i
  {
    if i < |s| {
      CountPrefixStep(s, i);
      CountMonotone(s, i + 1);
    } else {
      assert s[..i] == s;
    }
  }

  /** Scanning white space only changes nothing but the word in progress:
      a run of one or more spaces completes at most one word. */
  lemma {:induction false} RunSpaces(st: State, w: seq<char>)
    requires AllSpace(w)
    requires |w| > 0
    ensures Run(st, w) == State(st.chars, st.words + (if st.inWord then 1 else 0), false)
    decreases |w|
  {
    var next := Step(st, w[0]);
    if |w| > 1 {
      RunSpaces(next, w[1..]);
    }
  }

  /** A run of white space appended to any input adds no character and at
      most one word. */
  lemma SpaceRunAddsAtMostOneWord(s: seq<char>, w: seq<char>)
    requires AllSpace(w)
    ensures Count(s + w).chars == Count(s).chars
    ensures Count(s).words <= Count(s + w).words <= Count(s).words + 1
  {
    RunAppend(Initial, s, w);
    if |w| > 0 {
      RunSpaces(Count(s), w);
    } else {
      assert s + w == s;
    }
  }

  /** Input made only of white space, the empty input included, leaves both
      counters at zero. */
  lemma AllSpaceCountsNothing(s: seq<char>)
    requires AllSpace(s)
    ensures Count(s).chars == 0 && Count(s).words == 0
    ensures !Count(s).inWord
  {
    if |s| > 0 {
      RunSpaces(Initial, s);
    }
  }
}
