# Non-whitespace character and word counter, modelled in Dafny

The program counts the non-whitespace characters and the whitespace-delimited
words of a text file named on its command line, and prints the two totals. All
of its logic sits in `main`. The counters `num_chars` and `num_words` start at
zero. If exactly one argument is given (`argc == 2`), the file is scanned one
byte at a time, as `fgetc` returns it, so the "characters" counted are bytes: a
character encoded in several bytes counts once per byte. A non-whitespace
byte is counted and sets the `in_word` flag. A whitespace character completes a word when the flag is set,
then clears the flag. Nothing runs after the loop, so a word at the very end of
the file with no whitespace after it is never counted as a word. Its characters
are still counted.

The model has four modules:

- `Whitespace` (`whitespace.dfy`): the classification `iswspace` makes in the
  "C" locale (sections 7.4.1.10 and 7.30.2.1.10 of ISO C11). The white-space
  characters are space, tab, new-line, vertical tab, form feed and carriage
  return.
- `Counter` (`counter.dfy`): the loop as a state machine. `State` holds
  (`chars`, `words`, `inWord`), `Step` is one iteration, `Run` folds `Step`
  over a sequence from first to last element, and `Count(s)` is `Run` from the
  all-zero state. The lemmas state the invariants the loop keeps and what
  appending input does to the counters.
- `ClosedForm` (`closed_form.dfy`): the results stated without the loop, as
  sets of input positions. `num_chars` is the number of non-space positions.
  `num_words` is the number of positions where a space follows a non-space
  element. The completed words plus the word in progress equal the number of
  maximal runs of non-space characters.
- `Program` (`program.dfy`): `main` itself. `Outcome` is the pure meaning of
  one invocation and `Execute` is the same with the scan written as a
  `while` loop (`Scan`), without the extra read past end of file. The file's
  contents are a parameter.

## Model

| member | source | states |
|---|---|---|
| Whitespace.IsSpace | src/clj_minesweeper/non-whitespace.c:16 | the characters classified as white space are exactly space, tab, new-line, vertical tab, form feed and carriage return |
| Counter.Step | src/clj_minesweeper/non-whitespace.c:16-23 | one iteration sets the in-word flag exactly when the character is not white space; it adds one character exactly for a non-space character and one word exactly when a space ends a word; at most one counter moves, by at most one, and the counter bound is kept |
| Counter.Run | src/clj_minesweeper/non-whitespace.c:14-24 | the loop continued from any state over any input: each counter only grows, by at most one per element, and the bound that completed words plus the word in progress do not exceed the counted characters is kept; its exact results are stated by ClosedForm.CountClosedForm |
| Counter.Count | src/clj_minesweeper/non-whitespace.c:7-24 | the loop from the zero counters: at most one counted character per element, and num_words plus one for a word in progress is at most num_chars, so num_words is at most num_chars; its exact results are stated by ClosedForm.CountClosedForm |
| Counter.RunAppend | src/clj_minesweeper/non-whitespace.c:14-24 | scanning a concatenation equals scanning the first part and continuing from that state over the second |
| Counter.RunSnoc | src/clj_minesweeper/non-whitespace.c:14-24 | reading one more character is one more loop iteration on the state reached so far |
| Counter.CountPrefixStep | src/clj_minesweeper/non-whitespace.c:14-24 | the state after the first i+1 characters is one iteration on the state after the first i |
| Counter.CountInWord | src/clj_minesweeper/non-whitespace.c:10-22 | in_word is set exactly when the last character read was not white space, and clear for the empty input |
| Counter.AppendChar | src/clj_minesweeper/non-whitespace.c:16-22 | appending a non-space character adds one to num_chars and leaves num_words; appending a space leaves num_chars and adds one to num_words exactly when the previous character was not white space |
| Counter.CountMonotone | src/clj_minesweeper/non-whitespace.c:7-21 | neither counter decreases: every prefix of the input has at most the characters and at most the words of the whole |
| Counter.RunSpaces | src/clj_minesweeper/non-whitespace.c:20-22 | a non-empty run of spaces leaves num_chars, completes the word in progress if there is one, and clears in_word |
| Counter.SpaceRunAddsAtMostOneWord | src/clj_minesweeper/non-whitespace.c:20-22 | white space appended to any input adds no character and at most one word |
| Counter.AllSpaceCountsNothing | src/clj_minesweeper/non-whitespace.c:7-22 | input made only of white space, the empty input included, yields zero characters and zero words and ends outside a word |
| ClosedForm.CountClosedForm | src/clj_minesweeper/non-whitespace.c:14-24 | num_chars is the number of non-space positions; num_words is the number of positions i with s[i-1] not white space and s[i] white space; completed words plus the one in progress are the number of maximal non-space runs |
| ClosedForm.TrailingWordNotCounted | src/clj_minesweeper/non-whitespace.c:14-25 | for input ending in a non-space character num_words is one less than the number of words; for empty input or input ending in white space it is equal |
| Program.Outcome | src/clj_minesweeper/non-whitespace.c:6-28 | with argc other than 2 the report is (0, 0); with argc equal to 2 it reports the closed-form word and character counts of the file, words never exceeding characters |
| Program.Scan | src/clj_minesweeper/non-whitespace.c:10-24 | the in-place loop over the bytes, without the extra read past end of file, ends with num_chars and num_words equal to the closed-form counts |
| Program.Execute | src/clj_minesweeper/non-whitespace.c:6-28 | the imperative entry point, counters at zero and a scan only when argc is 2, agrees with Outcome and reports (0, 0) for any other argument count |
| Program.HelloWorldWithoutNewline | src/clj_minesweeper/non-whitespace.c:14-24 | in the model, without the extra read past end of file, "hello world" with no final new-line reports one word and ten characters |
| Program.HelloWorldWithNewline | src/clj_minesweeper/non-whitespace.c:14-24 | in the model, without the extra read past end of file, "hello world" followed by a new-line reports two words and ten characters |

## Left out

- Opening and reading the file (`fopen`, `feof`, `fgetc`, lines 13-15): the
  file's contents are given as a `seq<char>`, one element per byte read
  (values 0 to 255). A character encoded in several bytes, such as a UTF-8
  "é" or no-break space, is several elements and counts once per byte, as in
  the program; the model does not restrict the element values itself. The
  unchecked `NULL` result of a failed `fopen` is not modelled.
- The extra iteration caused by testing `feof` before `fgetc` (lines 14-15).
  After the last real character the loop reads once more and classifies the
  `EOF` value converted to `char`. The result depends on implementation-defined
  conversions, so it is not treated as input. Its likely effect (one more
  non-space character, no change to the words) is what `Counter.AppendChar`
  states for a non-space character.
- Conversion of the read value to a possibly signed `char` and then to
  `wint_t`, and classification in locales other than "C": the model uses the
  six standard white-space characters only.
- The `printf` formatting of lines 26-27: `Report` keeps the two values in
  printed order (words, then characters) but not the text around them.
- Overflow of the `int` counters: the counters are unbounded naturals.
