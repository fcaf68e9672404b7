/** The entry point of completion, kube/completer.go: it looks at the text before
    the cursor and hands over to the flag, flag-value or argument completion. */
module Completion {
  import opened GoStrings
  import opened Prompt
  import opened Cluster
  import Options
  import OptionArguments
  import Arguments

  /** The completer: the namespace of the current kubeconfig context, what it
      reads from the cluster, and the listing of YAML files and directories for
      the path being typed (a file-system read, kept as a parameter). */
  datatype Completer = Completer(namespace: string, env: Env, yamlFiles: Document -> seq<Suggest>)

  /* ---- The namespace given on the line ---- */

  predicate IsNamespaceFlag(w: string)
  {
    w == "--namespace" || w == "-n"
  }

  predicate IsFileFlag(w: string)
  {
    w == "-f" || w == "--filename"
  }

  /** The loop of checkNamespaceArg: the word after the first namespace flag, or
      "" when there is no flag or nothing after it. */
  function NamespaceArg(args: seq<string>): (r: string)
    ensures r != "" ==> exists i :: 0 <= i < |args| - 1 && IsNamespaceFlag(args[i]) && args[i + 1] == r
  {
    if |args| < 2 then ""
    else if IsNamespaceFlag(args[0]) then args[1]
    else
      var r := NamespaceArg(args[1..]);
      assert r != "" ==> exists i :: 1 <= i < |args| - 1 && IsNamespaceFlag(args[i]) && args[i + 1] == r by {
        if r != "" {
          var i :| 0 <= i < |args[1..]| - 1 && IsNamespaceFlag(args[1..][i]) && args[1..][i + 1] == r;
          assert IsNamespaceFlag(args[i + 1]) && args[i + 2] == r;
        }
      }
      r
  }

  /** The value taken is the one after the first namespace flag. */
  lemma {:induction false} NamespaceArgFollowsFirstFlag(args: seq<string>, i: nat)
    requires i + 1 < |args| && IsNamespaceFlag(args[i])
    requires forall j :: 0 <= j < i ==> !IsNamespaceFlag(args[j])
    ensures NamespaceArg(args) == args[i + 1]
    decreases i
  {
    if i > 0 {
      NamespaceArgFollowsFirstFlag(args[1..], i - 1);
    }
  }

  /** Without a namespace flag followed by a word, no namespace is given. */
  lemma {:induction false} NamespaceArgWithoutFlag(args: seq<string>)
    requires forall j :: 0 <= j < |args| - 1 ==> !IsNamespaceFlag(args[j])
    ensures NamespaceArg(args) == ""
    decreases |args|
  {
    if |args| >= 2 {
      NamespaceArgWithoutFlag(args[1..]);
    }
  }

  /** checkNamespaceArg: the namespace named anywhere on the line, cursor or not. */
  function CheckNamespaceArg(text: string): string
  {
    NamespaceArg(Split(text, " "))
  }

  /* ---- Flag values ---- */

  /** getPreviousOption: the first word and the word before the one being typed,
      when the latter is a flag. `before` is the text before the cursor. */
  function GetPreviousOption(before: string): (r: (string, string, bool))
    ensures r.2 == OptionArguments.GetPreviousOption(before).1
    ensures r.1 == OptionArguments.GetPreviousOption(before).0
    ensures r.0 == if r.2 then Split(before, " ")[0] else ""
  {
    var args := Split(before, " ");
    var option := OptionArguments.WordBefore(args);
    if HasPrefix(option, "-") then (args[0], option, true) else ("", "", false)
  }

  /** The commands whose file and namespace flags get their values completed
      (kube/completer.go:134-136). */
  const FileCommands: seq<string> := [
    "get", "describe", "create", "delete", "replace", "patch",
    "edit", "apply", "expose", "rolling-update", "rollout",
    "label", "annotate", "scale", "convert", "autoscale", "top"
  ]

  /** completeOptionArguments: after a file flag, the YAML files; after a namespace
      flag, the namespaces starting with the word typed; otherwise nothing, and
      `found` false. Only the commands of FileCommands get either. */
  function CompleteOptionArguments(c: Completer, d: Document): (r: (seq<Suggest>, bool))
    requires d.Valid()
    ensures !r.1 ==> r.0 == []
    ensures var (command, option, found) := GetPreviousOption(d.TextBeforeCursor());
      && (r.1 <==> found && command in FileCommands && (IsFileFlag(option) || IsNamespaceFlag(option)))
      && (r.1 && IsFileFlag(option) ==> r.0 == c.yamlFiles(d))
      && (r.1 && IsNamespaceFlag(option) ==> r.0 == FilterHasPrefix(c.env.namespaces, d.WordBeforeCursor(), true))
  {
    var (command, option, found) := GetPreviousOption(d.TextBeforeCursor());
    if !found then ([], false)
    else if command in FileCommands then
      if IsFileFlag(option) then (c.yamlFiles(d), true)
      else if IsNamespaceFlag(option) then
        (FilterHasPrefix(c.env.namespaces, d.WordBeforeCursor(), true), true)
      else ([], false)
    else ([], false)
  }

  /** After a file flag of a file command, whenever the file completer of
      kube/option_arguments.go fires, this completer fires too. Each answers with
      its own file listing, so the two agree wherever the listings do. */
  lemma FileFlagAgreesWithFileCompleter(c: Completer, files: Document -> seq<Suggest>, d: Document)
    requires d.Valid()
    requires Split(d.TextBeforeCursor(), " ")[0] in FileCommands
    requires OptionArguments.CompleteOptionArguments(files, d).1
    ensures OptionArguments.CompleteOptionArguments(files, d) == (files(d), true)
    ensures CompleteOptionArguments(c, d) == (c.yamlFiles(d), true)
    ensures c.yamlFiles(d) == files(d) ==>
      CompleteOptionArguments(c, d) == OptionArguments.CompleteOptionArguments(files, d)
  {
  }

  /* ---- Positional words ---- */

  /** The flags whose next word is their value (kube/completer.go:155-165). */
  const SkipNext: seq<string> := [
    "-f", "--filename", "-n", "--namespace", "-s", "--server",
    "--kubeconfig", "--cluster", "--user"
  ]

  /** Whether the word at position `i` is the value of the flag before it: that
      flag takes a value and is not itself a value. */
  predicate Consumed(args: seq<string>, i: nat)
    requires i < |args|
    decreases i
  {
    i > 0 && args[i - 1] in SkipNext && !Consumed(args, i - 1)
  }

  /** Whether the word at position `i` is positional: neither a flag nor a flag's value. */
  predicate IsPositional(args: seq<string>, i: nat)
    requires i < |args|
  {
    !Consumed(args, i) && !HasPrefix(args[i], "-")
  }

  /** The positional words among the first `n`, in order. */
  function Positionals(args: seq<string>, n: nat): (r: seq<string>)
    requires n <= |args|
    ensures forall w :: w in r ==> w in args[..n] && !HasPrefix(w, "-")
  {
    if n == 0 then []
    else
      var init := Positionals(args, n - 1);
      assert forall w :: w in args[..n - 1] ==> w in args[..n];
      init + if IsPositional(args, n - 1) then [args[n - 1]] else []
  }

  /** The loop of excludeOptions, from position `i`, with `skip` telling whether
      the word at `i` is to be skipped and `kept` the words kept so far. */
  function Scan(args: seq<string>, i: nat, skip: bool, kept: seq<string>): seq<string>
    requires i <= |args|
    decreases |args| - i
  {
    if i == |args| then kept
    else if skip then Scan(args, i + 1, false, kept)
    else
      var takesValue := args[i] in SkipNext;
      if HasPrefix(args[i], "-") then Scan(args, i + 1, takesValue, kept)
      else Scan(args, i + 1, takesValue, kept + [args[i]])
  }

  /** excludeOptions: the words of the line that are neither flags nor flag values. */
  function ExcludeOptions(args: seq<string>): (r: seq<string>)
    ensures r == Positionals(args, |args|)
    ensures forall w :: w in r ==> w in args && !HasPrefix(w, "-")
  {
    ScanFindsPositionals(args, 0, false, []);
    assert args[..|args|] == args;
    Scan(args, 0, false, [])
  }

  lemma {:induction false} ScanFindsPositionals(args: seq<string>, i: nat, skip: bool, kept: seq<string>)
    requires i <= |args|
    requires kept == Positionals(args, i)
    requires i < |args| ==> skip == Consumed(args, i)
    ensures Scan(args, i, skip, kept) == Positionals(args, |args|)
    decreases |args| - i
  {
    if i < |args| {
      if skip {
        ScanFindsPositionals(args, i + 1, false, kept);
      } else {
        var takesValue := args[i] in SkipNext;
        var next := if HasPrefix(args[i], "-") then kept else kept + [args[i]];
        ScanFindsPositionals(args, i + 1, takesValue, next);
      }
    }
  }

  /** Whether the line ends with a flag still waiting for its value. */
  predicate AwaitsValue(args: seq<string>)
  {
    |args| > 0 && Last(args) in SkipNext && !Consumed(args, |args| - 1)
  }

  lemma {:induction false} ConsumedPrefix(args: seq<string>, w: string, i: nat)
    requires i < |args|
    ensures Consumed(args + [w], i) == Consumed(args, i)
    decreases i
  {
    if i > 0 {
      ConsumedPrefix(args, w, i - 1);
    }
  }

  lemma {:induction false} PositionalsPrefix(args: seq<string>, w: string, n: nat)
    requires n <= |args|
    ensures Positionals(args + [w], n) == Positionals(args, n)
    decreases n
  {
    if n > 0 {
      PositionalsPrefix(args, w, n - 1);
      ConsumedPrefix(args, w, n - 1);
    }
  }

  /** One more word is kept exactly when it is not a flag and not the value of
      the flag before it. */
  lemma ExcludeOptionsAppend(args: seq<string>, w: string)
    ensures ExcludeOptions(args + [w])
      == ExcludeOptions(args) + if !AwaitsValue(args) && !HasPrefix(w, "-") then [w] else []
  {
    PositionalsPrefix(args, w, |args|);
    if |args| > 0 {
      ConsumedPrefix(args, w, |args| - 1);
    }
  }

  /** Words that are not flags are all kept; so removing flags twice is removing them once. */
  lemma {:induction false} ExcludeOptionsKeepsPlainWords(args: seq<string>)
    requires forall w :: w in args ==> !HasPrefix(w, "-")
    ensures ExcludeOptions(args) == args
    decreases |args|
  {
    if args != [] {
      var init := args[..|args| - 1];
      assert args == init + [Last(args)];
      assert forall w :: w in init ==> w in args;
      ExcludeOptionsKeepsPlainWords(init);
      ExcludeOptionsAppend(init, Last(args));
      assert !AwaitsValue(init) by {
        if |init| > 0 {
          assert Last(init) in args;
          ValuedFlagsAreFlags();
        }
      }
    }
  }

  lemma ValuedFlagsAreFlags()
    ensures forall f :: f in SkipNext ==> HasPrefix(f, "-")
  {
  }

  lemma ExcludeOptionsIdempotent(args: seq<string>)
    ensures ExcludeOptions(ExcludeOptions(args)) == ExcludeOptions(args)
  {
    ExcludeOptionsKeepsPlainWords(ExcludeOptions(args));
  }

  /* ---- Complete ---- */

  /** How Complete answers: with suggestions right away, with the flags for the
      words of the line, or by completing the line's positional words in a namespace. */
  datatype Step =
    | Answer(suggestions: seq<Suggest>)
    | Flags(args: seq<string>, long: bool)
    | Positional(namespace: string, words: seq<string>)

  /** The decisions of Complete (kube/completer.go:56-83): nothing on an empty
      line or after a pipe, flags when the word being typed starts with a dash,
      a flag value after a flag, and otherwise the positional words in the
      namespace named on the line or, failing that, the completer's own. */
  function Prepare(c: Completer, d: Document): (r: Step)
    requires d.Valid()
    ensures r.Flags? <==> (
      && d.TextBeforeCursor() != ""
      && "|" !in Split(d.TextBeforeCursor(), " ")
      && HasPrefix(d.WordBeforeCursor(), "-"))
    ensures r.Flags? ==> r.args == Split(d.TextBeforeCursor(), " ") && r.long == HasPrefix(d.WordBeforeCursor(), "--")
    ensures
      && d.TextBeforeCursor() != ""
      && "|" !in Split(d.TextBeforeCursor(), " ")
      && !HasPrefix(d.WordBeforeCursor(), "-")
      ==> (r.Answer? <==> CompleteOptionArguments(c, d).1) && (r.Answer? ==> r.suggestions == CompleteOptionArguments(c, d).0)
    ensures r.Positional? ==> r.words == ExcludeOptions(Split(d.TextBeforeCursor(), " "))
    ensures r.Positional? ==> forall w :: w in r.words ==> !HasPrefix(w, "-")
    ensures r.Positional? ==> r.namespace == if CheckNamespaceArg(d.text) == "" then c.namespace else CheckNamespaceArg(d.text)
  {
    var before := d.TextBeforeCursor();
    if before == "" then Answer([])
    else
      var args := Split(before, " ");
      var w := d.WordBeforeCursor();
      if "|" in args then Answer([])
      else if HasPrefix(w, "-") then Flags(args, HasPrefix(w, "--"))
      else
        var (suggests, found) := CompleteOptionArguments(c, d);
        if found then Answer(suggests)
        else
          var named := CheckNamespaceArg(d.text);
          Positional(if named == "" then c.namespace else named, ExcludeOptions(args))
  }

  /** Complete: the suggestions for a document. A line with no positional word
      left gets no suggestion. */
  function Complete(c: Completer, d: Document): (r: seq<Suggest>)
    requires d.Valid()
    ensures d.TextBeforeCursor() == "" ==> r == []
    ensures "|" in Split(d.TextBeforeCursor(), " ") ==> r == []
  {
    Finish(c.env, Prepare(c, d))
  }

  /** The suggestions a step of Complete ends with. */
  function Finish(env: Env, step: Step): seq<Suggest>
  {
    match step
    case Answer(suggests) => suggests
    case Flags(args, long) => Options.OptionCompleter(args, long)
    case Positional(namespace, words) =>
      if words == [] then [] else Arguments.ArgumentsCompleter(env, namespace, words)
  }

  /** What calling Complete as written does: return, or panic. */
  datatype Outcome = Returned(suggestions: seq<Suggest>) | Panicked

  /** Complete as written: argumentsCompleter reads the first word of a line that
      has at most one, so a line whose words are all flags or flag values panics. */
  function CompleteAsWritten(c: Completer, d: Document): (r: Outcome)
    requires d.Valid()
    ensures r.Returned? ==> r.suggestions == Complete(c, d)
    ensures r.Panicked? <==> Prepare(c, d).Positional? && Prepare(c, d).words == []
  {
    var step := Prepare(c, d);
    if step.Positional? && step.words == [] then Panicked else Returned(Finish(c.env, step))
  }

  /** The line as a document with the cursor at its end. */
  function AtEnd(text: string): (d: Document)
    ensures d.Valid() && d.TextBeforeCursor() == text
  {
    assert text[..|text|] == text;
    Document(text, |text|)
  }

  /** Once a pipe word is typed, whatever follows it gets no suggestion. */
  lemma PipeIsSticky(c: Completer, t: string, u: string)
    requires "|" in Split(t, " ")
    ensures Complete(c, AtEnd(t + " " + u)) == []
  {
    SplitAppend(t, " ", u);
    assert "|" in Split(t + " " + u, " ");
  }

  /** A word starting with a dash is completed from the flags of the line's
      command, long flags only when it starts with two. */
  lemma DashedWordOffersFlags(c: Completer, t: string, u: string)
    requires Spaceless(u) && HasPrefix(u, "-")
    requires "|" !in Split(t, " ")
    ensures Complete(c, AtEnd(t + " " + u))
      == Options.OptionCompleter(Split(t, " ") + [u], HasPrefix(u, "--"))
  {
    DashedWordAsksForFlags(c, t, u);
  }

  lemma DashedWordAsksForFlags(c: Completer, t: string, u: string)
    requires Spaceless(u) && HasPrefix(u, "-")
    requires "|" !in Split(t, " ")
    ensures Prepare(c, AtEnd(t + " " + u)) == Flags(Split(t, " ") + [u], HasPrefix(u, "--"))
  {
    SplitAtLastSpace(t, u);
    assert u != "|";
  }

  /** Wherever the cursor is, a dashed word before it gets the flags for the
      words before the cursor, the long ones only when the word starts with "--". */
  lemma DashedWordOffersFlagsAnywhere(c: Completer, d: Document)
    requires d.Valid() && d.TextBeforeCursor() != ""
    requires "|" !in Split(d.TextBeforeCursor(), " ") && HasPrefix(d.WordBeforeCursor(), "-")
    ensures Complete(c, d)
      == Options.OptionCompleter(Split(d.TextBeforeCursor(), " "), HasPrefix(d.WordBeforeCursor(), "--"))
  {
  }

  /** A dashed word alone on the line gets the help flags: both of them, or only
      the long one when the word starts with "--". */
  lemma LoneDashedWordOffersHelp(c: Completer, w: string)
    requires Spaceless(w) && HasPrefix(w, "-")
    ensures Complete(c, AtEnd(w))
      == if HasPrefix(w, "--") then [Suggest("--help", "")] else [Suggest("-h", ""), Suggest("--help", "")]
  {
    SpacelessIsOneWord(w);
    LastWordIsLastToken(w);
    assert w != "|";
    Options.HelpWithoutCommand(w);
  }

  /** The first word of a line is completed from the command table. */
  lemma FirstWordOffersCommands(c: Completer, w: string)
    requires Spaceless(w) && w != "" && w != "|" && !HasPrefix(w, "-")
    ensures Complete(c, AtEnd(w)) == FilterHasPrefix(Arguments.Entries(Arguments.CommandTable), w, true)
  {
    FirstWordIsPositional(c, w);
  }

  lemma FirstWordIsPositional(c: Completer, w: string)
    requires Spaceless(w) && w != "" && w != "|" && !HasPrefix(w, "-")
    ensures Prepare(c, AtEnd(w)).Positional? && Prepare(c, AtEnd(w)).words == [w]
  {
    SpacelessIsOneWord(w);
    LastWordIsLastToken(w);
    OptionArguments.OneWordHasNoPreviousOption(w);
    ExcludeOptionsKeepsPlainWords([w]);
  }

  /** After a namespace flag of a file command, the namespaces starting with
      the word typed are offered, ignoring case. */
  lemma NamespaceFlagOffersNamespaces(c: Completer, t: string, u: string)
    requires Spaceless(u) && u != "|" && !HasPrefix(u, "-")
    requires "|" !in Split(t, " ")
    requires Split(t, " ")[0] in FileCommands && IsNamespaceFlag(LastWord(t))
    ensures Complete(c, AtEnd(t + " " + u)) == FilterHasPrefix(c.env.namespaces, u, true)
  {
    NamespaceFlagAnswers(c, t, u);
  }

  lemma NamespaceFlagAnswers(c: Completer, t: string, u: string)
    requires Spaceless(u) && u != "|" && !HasPrefix(u, "-")
    requires "|" !in Split(t, " ")
    requires Split(t, " ")[0] in FileCommands && IsNamespaceFlag(LastWord(t))
    ensures Prepare(c, AtEnd(t + " " + u)) == Answer(FilterHasPrefix(c.env.namespaces, u, true))
  {
    var d := AtEnd(t + " " + u);
    SplitAtLastSpace(t, u);
    NamespaceValueFound(c, t, u);
  }

  lemma NamespaceValueFound(c: Completer, t: string, u: string)
    requires Spaceless(u)
    requires Split(t, " ")[0] in FileCommands && IsNamespaceFlag(LastWord(t))
    ensures CompleteOptionArguments(c, AtEnd(t + " " + u)) == (FilterHasPrefix(c.env.namespaces, u, true), true)
  {
    OptionBeforeWord(AtEnd(t + " " + u), t, u);
  }

  /** On a document whose text before the cursor is `t + " " + u`, the word
      typed is `u` and the flag before it is the last word of `t`. */
  lemma OptionBeforeWord(d: Document, t: string, u: string)
    requires Spaceless(u) && HasPrefix(LastWord(t), "-")
    requires d.Valid() && d.TextBeforeCursor() == t + " " + u
    ensures GetPreviousOption(d.TextBeforeCursor()) == (Split(t, " ")[0], LastWord(t), true)
    ensures d.WordBeforeCursor() == u
  {
    SplitAtLastSpace(t, u);
    PreviousOptionAfterSpace(t, u);
  }

  /** The three-result getPreviousOption on `t + " " + u`: the first word of `t`
      and its last word, when that is a flag. */
  lemma PreviousOptionAfterSpace(t: string, u: string)
    requires Spaceless(u) && HasPrefix(LastWord(t), "-")
    ensures GetPreviousOption(t + " " + u) == (Split(t, " ")[0], LastWord(t), true)
  {
    SplitAtLastSpace(t, u);
    OptionArguments.PreviousOptionIsWordBefore(t, u);
  }

  /** A namespace named on the line takes the place of the completer's own. */
  lemma NamespaceOnLineOverridesDefault(c: Completer, d: Document, other: string)
    requires d.Valid()
    requires CheckNamespaceArg(d.text) != ""
    ensures Complete(c, d) == Complete(c.(namespace := other), d)
  {
    PrepareIgnoresDefault(c, d, other);
  }

  lemma PrepareIgnoresDefault(c: Completer, d: Document, other: string)
    requires d.Valid()
    requires CheckNamespaceArg(d.text) != ""
    ensures Prepare(c, d) == Prepare(c.(namespace := other), d)
  {
    var moved := c.(namespace := other);
    assert CompleteOptionArguments(moved, d) == CompleteOptionArguments(c, d);
  }

  /** "-f " (a file flag and a space) leaves no positional word: as written,
      Complete panics on it; the corrected Complete offers nothing. */
  lemma FileFlagAloneFindsNoWord(c: Completer)
    ensures CompleteAsWritten(c, AtEnd("-f ")) == Panicked
    ensures Complete(c, AtEnd("-f ")) == []
  {
    FileFlagAloneLeavesNoWord(c);
  }

  lemma FileFlagAloneLeavesNoWord(c: Completer)
    ensures Prepare(c, AtEnd("-f ")) == Positional(c.namespace, [])
  {
    FileFlagPrepared(c, AtEnd("-f "));
  }

  lemma FileFlagPrepared(c: Completer, d: Document)
    requires d.Valid() && d.text == "-f " && d.TextBeforeCursor() == "-f "
    ensures Prepare(c, d) == Positional(c.namespace, [])
  {
    FileFlagLineWords(d.text);
    FileFlagLineWords(d.TextBeforeCursor());
    FileFlagOption(d);
    FileFlagHasNoValue(c, d);
    FileFlagWordsExcluded(["-f", ""]);
    NamespaceArgWithoutFlag(["-f", ""]);
    PreparePositional(c, d, ["-f", ""]);
  }

  /** The positional branch of Prepare, for a line `args` without a pipe, a
      dashed word being typed or a flag value to complete. */
  lemma PreparePositional(c: Completer, d: Document, args: seq<string>)
    requires d.Valid() && d.TextBeforeCursor() != ""
    requires args == Split(d.TextBeforeCursor(), " ")
    requires "|" !in args && !HasPrefix(d.WordBeforeCursor(), "-")
    requires !CompleteOptionArguments(c, d).1
    ensures Prepare(c, d) == Positional(
      if CheckNamespaceArg(d.text) == "" then c.namespace else CheckNamespaceArg(d.text),
      ExcludeOptions(args))
  {
  }

  /** The words of "-f ": the flag and an empty word being typed. */
  lemma FileFlagLineWords(line: string)
    requires line == "-f "
    ensures Split(line, " ") == ["-f", ""]
    ensures LastWord(line) == ""
  {
    FileFlagText();
    FlagThenEmptyWord("-f", "");
  }

  /** A flag followed by a space and an empty word splits into the two. */
  lemma FlagThenEmptyWord(t: string, u: string)
    requires Spaceless(t) && u == ""
    ensures Split(t + " " + u, " ") == [t, u]
    ensures LastWord(t + " " + u) == u
  {
    SplitAtLastSpace(t, u);
    SpacelessIsOneWord(t);
  }

  /** "-f" is its own only word, and so its own last word. */
  lemma FileFlagWord()
    ensures Split("-f", " ") == ["-f"]
    ensures LastWord("-f") == "-f"
  {
    SpacelessIsOneWord("-f");
    LastWordIsLastToken("-f");
  }

  lemma FileFlagOption(d: Document)
    requires d.Valid() && d.TextBeforeCursor() == "-f "
    ensures GetPreviousOption(d.TextBeforeCursor()) == ("-f", "-f", true)
    ensures d.WordBeforeCursor() == ""
  {
    FileFlagText();
    FileFlagWord();
    OptionBeforeWord(d, "-f", "");
  }

  /** The line "-f " as a word, a space and an empty word. */
  lemma FileFlagText()
    ensures "-f " == "-f" + " " + ""
  { }

  /** Both words of "-f " are removed: the flag, and the empty word as its value. */
  lemma FileFlagWordsExcluded(args: seq<string>)
    requires args == ["-f", ""]
    ensures ExcludeOptions(args) == []
  {
    assert args == ["-f"] + [""];
    ExcludeOptionsAppend(["-f"], "");
    assert ["-f"] == [] + ["-f"];
    ExcludeOptionsAppend([], "-f");
  }

  /** Without a command before it, a file flag's value is not completed. */
  lemma FileFlagHasNoValue(c: Completer, d: Document)
    requires d.Valid() && d.TextBeforeCursor() == "-f "
    ensures CompleteOptionArguments(c, d) == ([], false)
  {
    FileFlagOption(d);
    assert "-f" !in FileCommands;
  }
}
