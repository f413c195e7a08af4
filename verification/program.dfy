/**
 The program entry point: counters initialised to zero, a scan only when
 exactly one file argument is given (`argc == 2`), and the two totals
 reported. The file's contents are a parameter; opening and reading the file
 are not modelled. Each element of the contents stands for one value as
 `fgetc` returns it, a single byte (0 to 255): a character encoded in several
 bytes is several elements and is counted once per byte.
 */
module Program {
  import opened Whitespace
  import opened Counter
  import opened ClosedForm

  /** The two values the program reports, in the order it prints them. */
  datatype Report = Report(numWords: nat, numChars: nat)

  /** What the program reports for `argc` command-line words (the program
      name included) when the named file holds `contents`, one element per
      byte read. The extra read past end of file is not modelled. */
  function Outcome(argc: int, contents: seq<char>): (r: Report)
    ensures argc != 2 ==> r == Report(0, 0)
    ensures argc == 2 ==> r.numChars == |NonSpacePositions(contents)|
    ensures argc == 2 ==> r.numWords == |WordEndPositions(contents)|
    ensures r.numWords <= r.numChars
  {
    if argc == 2 then
      var st := Count(contents);
      CountClosedForm(contents);
      Report(st.words, st.chars)
    else
      Report(0, 0)
  }

  /** The scan loop, without the extra read past end of file: one byte of
      `contents` per iteration, updating the two counters and the in-word
      flag in place. */
  method Scan(contents: seq<char>) returns (numChars: nat, numWords: nat)
    ensures numChars == |NonSpacePositions(contents)|
    ensures numWords == |WordEndPositions(contents)|
  {
    numChars, numWords := 0, 0;
    var inWord := false;
    var i := 0;
    while i < |contents|
      invariant i <= |contents|
      invariant State(numChars, numWords, inWord) == Count(contents[..i])
    {
      var c := contents[i];
      CountPrefixStep(contents, i);
      if !IsSpace(c) {
        numChars := numChars + 1;
        inWord := true;
      } else {
        if inWord {
          numWords := numWords + 1;
        }
        inWord := false;
      }
      i := i + 1;
    }
    assert contents[..i] == contents;
    CountClosedForm(contents);
  }

  /** The entry point with its argument-count gate around the scan. */
  method Execute(argc: int, contents: seq<char>) returns (r: Report)
    ensures r == Outcome(argc, contents)
    ensures argc != 2 ==> r.numWords == 0 && r.numChars == 0
  {
    var numChars, numWords := 0, 0;
    if argc == 2 {
      numChars, numWords := Scan(contents);
    }
    r := Report(numWords, numChars);
  }

  /** A text ending in the middle of a word: only the first word counts
      (without the extra read past end of file). */
  lemma HelloWorldWithoutNewline()
    ensures Outcome(2, "hello world") == Report(1, 10)
  {
  }

  /** The same text with a final new-line: both words count (without the
      extra read past end of file). */
  lemma HelloWorldWithNewline()
    ensures Outcome(2, "hello world\n") == Report(2, 10)
  {
  }
}
