/** Python's `lstrip`, `rstrip` and `strip`, for any notion of white space. */
module Strings {
  function LStrip(space: char -> bool, s: string): string {
    if s != "" && space(s[0]) then LStrip(space, s[1..]) else s
  }

  function RStrip(space: char -> bool, s: string): string {
    if s != "" && space(s[|s| - 1]) then RStrip(space, s[..|s| - 1]) else s
  }

  function Strip(space: char -> bool, s: string): string {
    RStrip(space, LStrip(space, s))
  }

  lemma {:induction false} LStripStarts(space: char -> bool, s: string)
    ensures LStrip(space, s) != "" ==> !space(LStrip(space, s)[0])
  {
    if s != "" && space(s[0]) {
      LStripStarts(space, s[1..]);
    }
  }

  lemma {:induction false} RStripPrefix(space: char -> bool, s: string)
    ensures RStrip(space, s) <= s
    ensures RStrip(space, s) != "" ==> !space(RStrip(space, s)[|RStrip(space, s)| - 1])
  {
    if s != "" && space(s[|s| - 1]) {
      RStripPrefix(space, s[..|s| - 1]);
    }
  }

  /** A stripped text starts and ends visibly, and stripping it again changes nothing. */
  lemma StripVisible(space: char -> bool, s: string)
    ensures var t := Strip(space, s);
            t != "" ==> !space(t[0]) && !space(t[|t| - 1])
    ensures Strip(space, Strip(space, s)) == Strip(space, s)
  {
    LStripStarts(space, s);
    RStripPrefix(space, LStrip(space, s));
  }
}
