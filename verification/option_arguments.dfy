/** The flag-value completion of kube/option_arguments.go: after `-f` or
    `--filename`, the files under the path being typed. */
module OptionArguments {
  import opened GoStrings
  import opened Prompt

  /** The word before the last one of `args`, or "" when there is at most one. */
  function WordBefore(args: seq<string>): string
  {
    if |args| >= 2 then args[|args| - 2] else ""
  }

  /** getPreviousOption: the word before the word being typed, when it is a flag.
      `before` is the text before the cursor. */
  function GetPreviousOption(before: string): (r: (string, bool))
    ensures r.1 <==> r.0 != "" && HasPrefix(r.0, "-")
  {
    var option := WordBefore(Split(before, " "));
    if HasPrefix(option, "-") then (option, true) else ("", false)
  }

  /** A text without a space has no word before the one being typed. */
  lemma OneWordHasNoPreviousOption(before: string)
    requires Spaceless(before)
    ensures GetPreviousOption(before) == ("", false)
  {
    SpacelessIsOneWord(before);
  }

  /** Otherwise the option looked at is the last word before the last space. */
  lemma PreviousOptionIsWordBefore(t: string, u: string)
    requires Spaceless(u)
    ensures GetPreviousOption(t + " " + u)
      == if HasPrefix(LastWord(t), "-") then (LastWord(t), true) else ("", false)
  {
    WordBeforeLastSpace(t, u);
  }

  /** The word before the last piece of `t + " " + u` is the last word of `t`. */
  lemma WordBeforeLastSpace(t: string, u: string)
    requires Spaceless(u)
    ensures WordBefore(Split(t + " " + u, " ")) == LastWord(t)
  {
    SplitAtLastSpace(t, u);
    LastWordIsLastToken(t);
    WordBeforeAppended(Split(t, " "), u);
  }

  lemma WordBeforeAppended(xs: seq<string>, x: string)
    requires |xs| >= 1
    ensures WordBefore(xs + [x]) == Last(xs)
  {
  }

  /** completeOptionArguments: file suggestions after a file flag, and `found`
      false (with nothing suggested) otherwise. `files` stands for the listing of
      the directory of the word being typed, which reads the file system. */
  function CompleteOptionArguments(files: Document -> seq<Suggest>, d: Document): (r: (seq<Suggest>, bool))
    requires d.Valid()
    ensures var (option, found) := GetPreviousOption(d.TextBeforeCursor());
      r.1 <==> found && option in ["-f", "--filename"]
    ensures r.1 ==> r.0 == files(d)
    ensures !r.1 ==> r.0 == []
  {
    var (option, found) := GetPreviousOption(d.TextBeforeCursor());
    if !found then ([], false)
    else if option == "-f" || option == "--filename" then (files(d), true)
    else ([], false)
  }
}
