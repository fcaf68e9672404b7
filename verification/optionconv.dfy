/** internal/optionconv/conv.go: turning the "Options:" section of a kubectl help
    text into flag suggestions. */
module OptionConv {
  import opened GoStrings
  import opened Prompt
  import opened Results

  const OptionsHeader: string := "\nOptions:"
  const BlankLine: string := "\n\n"

  /** GetOptionsFromHelpText: the block after the first "Options:" header, up to
      the next blank line, without surrounding newlines; an error when the help
      text has no such header. */
  function GetOptionsFromHelpText(help: string): (r: Result<string>)
    ensures r.Err? <==> !Contains(help, OptionsHeader)
    ensures r.Ok? ==> !Contains(r.value, BlankLine)
    ensures r.Ok? ==> r.value == "" || (r.value[0] != '\n' && r.value[|r.value| - 1] != '\n')
  {
    var x := Split(help, OptionsHeader);
    if |x| < 2 then Err("parse error")
    else
      var y := Split(x[1], BlankLine);
      var block := Trim(y[0], "\n");
      InfixAvoids(block, y[0], BlankLine);
      Ok(block)
  }

  /** The header, the block and the blank line that ends it are found where a
      help text was put together from them. */
  lemma OptionsBlockFound(prologue: string, block: string, rest: string)
    requires !Contains(prologue, OptionsHeader)
    requires !Contains(block + BlankLine + rest, OptionsHeader)
    requires !Contains(block, BlankLine) && (block == "" || block[|block| - 1] != '\n')
    ensures GetOptionsFromHelpText(prologue + OptionsHeader + block + BlankLine + rest)
      == Ok(Trim(block, "\n"))
  {
    var after := block + BlankLine + rest;
    assert prologue + OptionsHeader + block + BlankLine + rest == Join([prologue, after], OptionsHeader);
    SplitJoinUnbordered([prologue, after], OptionsHeader);
    var s := block + BlankLine + rest;
    ContainsIff(block, BlankLine);
    forall j: nat | j < |block|
      ensures !OccursAt(s, BlankLine, j)
    {
      if j + 2 <= |block| {
        assert s[j..j + 2] == block[j..j + 2];
        assert !OccursAt(block, BlankLine, j);
      } else {
        assert j == |block| - 1;
        assert s[j..j + 2][0] == s[j] == block[|block| - 1] != BlankLine[0];
      }
    }
    CutBefore(block, BlankLine, rest);
  }

  /** Whether a help line opens a new option: it is indented by two spaces. */
  predicate StartsEntry(line: string)
  {
    HasPrefix(line, "  ")
  }

  /** The loop of SplitOptions over the lines, first to last: the first line and
      every indented line open an entry, trimmed; any other line is added to the
      entry before it, after a space. */
  function Gather(lines: seq<string>): (r: seq<string>)
    ensures r == [] <==> lines == []
  {
    if lines == [] then []
    else
      var entries := Gather(lines[..|lines| - 1]);
      var line := Last(lines);
      if StartsEntry(line) || entries == [] then entries + [TrimSpace(line)]
      else ExtendLast(entries, " " + line)
  }

  /** The entries with `more` added to the last one. */
  function ExtendLast(entries: seq<string>, more: string): (r: seq<string>)
    requires |entries| >= 1
    ensures |r| == |entries| && r[..|r| - 1] == entries[..|entries| - 1]
    ensures Last(r) == Last(entries) + more
  {
    entries[..|entries| - 1] + [Last(entries) + more]
  }

  lemma ExtendLastAppend(left: seq<string>, right: seq<string>, more: string)
    requires |right| >= 1
    ensures ExtendLast(left + right, more) == left + ExtendLast(right, more)
  {
    assert (left + right)[..|left + right| - 1] == left + right[..|right| - 1];
  }

  /** SplitOptions: one entry per option of the block, continuation lines joined. */
  function SplitOptions(options: string): (r: seq<string>)
    ensures |r| >= 1
  {
    Gather(Split(options, "\n"))
  }

  /** The lines that open an entry: the first, then every indented one. */
  function Openers(lines: seq<string>): seq<string>
    requires |lines| >= 1
  {
    [lines[0]] + Keep(lines[1..], StartsEntry)
  }

  /** Each entry starts with its head, one entry per head. */
  predicate Follows(entries: seq<string>, heads: seq<string>)
  {
    && |entries| == |heads|
    && forall k :: 0 <= k < |entries| ==> HasPrefix(entries[k], heads[k])
  }

  /** The opening lines, trimmed as the entries they open. */
  function Heads(lines: seq<string>): (r: seq<string>)
    requires |lines| >= 1
    ensures |r| == |Openers(lines)|
  {
    var o := Openers(lines);
    seq(|o|, k requires 0 <= k < |o| => TrimSpace(o[k]))
  }

  /** There is one entry per opening line, and each entry starts with its opening
      line, trimmed. */
  lemma {:induction false} GatherFollowsOpeners(lines: seq<string>)
    requires |lines| >= 1
    ensures Follows(Gather(lines), Heads(lines))
    decreases |lines|
  {
    if |lines| == 1 {
      GatherOneLine(lines);
    } else {
      var init, line := lines[..|lines| - 1], Last(lines);
      assert lines == init + [line];
      GatherFollowsOpeners(init);
      HeadsSnoc(init, line);
      GatherSnoc(init, line);
      if StartsEntry(line) {
        FollowsOpen(Gather(init), Heads(init), TrimSpace(line));
      } else {
        FollowsContinue(Gather(init), Heads(init), line);
      }
    }
  }

  /** One more line either opens an entry or extends the last one. */
  lemma GatherSnoc(init: seq<string>, line: string)
    requires |init| >= 1
    ensures var entries := Gather(init);
      Gather(init + [line]) == if StartsEntry(line) then entries + [TrimSpace(line)]
        else ExtendLast(entries, " " + line)
  {
    assert (init + [line])[..|init|] == init;
  }

  lemma HeadsSnoc(init: seq<string>, line: string)
    requires |init| >= 1
    ensures Heads(init + [line]) == Heads(init) + if StartsEntry(line) then [TrimSpace(line)] else []
  {
    OpenersSnoc(init, line);
  }

  lemma FollowsOpen(entries: seq<string>, heads: seq<string>, t: string)
    requires Follows(entries, heads)
    ensures Follows(entries + [t], heads + [t])
  {
    assert HasPrefix(t, t) by { assert t[..|t|] == t; }
  }

  lemma FollowsContinue(entries: seq<string>, heads: seq<string>, line: string)
    requires |entries| >= 1 && Follows(entries, heads)
    ensures Follows(ExtendLast(entries, " " + line), heads)
  {
    PrefixExtend(Last(entries), Last(heads), " " + line);
  }

  lemma GatherOneLine(lines: seq<string>)
    requires |lines| == 1
    ensures Follows(Gather(lines), Heads(lines))
  {
    var t := TrimSpace(lines[0]);
    assert Gather(lines) == [t] by { assert lines[..0] == []; }
    assert Openers(lines) == [lines[0]] by { assert lines[1..] == []; }
    assert HasPrefix(t, t) by { assert t[..|t|] == t; }
  }

  lemma OpenersSnoc(init: seq<string>, line: string)
    requires |init| >= 1
    ensures Openers(init + [line]) == Openers(init) + if StartsEntry(line) then [line] else []
  {
    assert (init + [line])[1..] == init[1..] + [line];
    KeepAppend(init[1..], [line], StartsEntry);
    assert [line][..0] == [];
  }

  /** A block whose first line is indented adds its own entries after those
      of the lines before it. */
  lemma {:induction false} GatherAppend(a: seq<string>, b: seq<string>)
    requires |b| >= 1 && StartsEntry(b[0])
    ensures Gather(a + b) == Gather(a) + Gather(b)
    decreases |b|
  {
    if a == [] {
      assert a + b == b;
    } else if |b| == 1 {
      GatherSnoc(a, b[0]);
      assert Gather(b) == [TrimSpace(b[0])] by { assert b[..0] == []; }
    } else {
      var init, line := b[..|b| - 1], Last(b);
      assert init[0] == b[0];
      assert a + b == (a + init) + [line];
      assert b == init + [line];
      GatherAppend(a, init);
      GatherSnoc(a + init, line);
      GatherSnoc(init, line);
      if !StartsEntry(line) {
        ExtendLastAppend(Gather(a), Gather(init), " " + line);
      }
    }
  }

  /** The text continuation lines add to an entry: each line after a space. */
  function Continued(cs: seq<string>): string
  {
    if cs == [] then "" else Continued(cs[..|cs| - 1]) + " " + Last(cs)
  }

  /** One option as printed in a help text: the line that opens it and the lines
      that continue it. */
  datatype Printed = Printed(opener: string, continuation: seq<string>)

  function PrintedLines(p: Printed): seq<string>
  {
    [p.opener] + p.continuation
  }

  /** The entry an option should become: its opening line trimmed, then every
      continuation line after a single space. */
  function EntryOf(p: Printed): string
  {
    TrimSpace(p.opener) + Continued(p.continuation)
  }

  /** The entries of some printed options, one per option, in order. */
  function EntriesOf(ps: seq<Printed>): (r: seq<string>)
    ensures |r| == |ps|
    ensures forall k :: 0 <= k < |ps| ==> r[k] == EntryOf(ps[k])
  {
    if ps == [] then []
    else
      var init := ps[..|ps| - 1];
      assert forall k :: 0 <= k < |init| ==> init[k] == ps[k];
      EntriesOf(init) + [EntryOf(Last(ps))]
  }

  /** Printed options SplitOptions can tell apart: no continuation line is
      indented, and every option after the first opens with an indented line. */
  predicate Separable(ps: seq<Printed>)
  {
    && (forall k, j :: 0 <= k < |ps| && 0 <= j < |ps[k].continuation| ==> !StartsEntry(ps[k].continuation[j]))
    && (forall k :: 1 <= k < |ps| ==> StartsEntry(ps[k].opener))
  }

  /** An opening line and its continuation lines gather into one entry. */
  lemma {:induction false} GatherEntry(p: Printed)
    requires forall j :: 0 <= j < |p.continuation| ==> !StartsEntry(p.continuation[j])
    ensures Gather(PrintedLines(p)) == [EntryOf(p)]
    decreases |p.continuation|
  {
    var cs := p.continuation;
    if cs == [] {
      GatherOpener(p);
    } else {
      var q := Printed(p.opener, cs[..|cs| - 1]);
      GatherEntry(q);
      GatherContinuation(p, q);
    }
  }

  lemma GatherOpener(p: Printed)
    requires p.continuation == []
    ensures Gather(PrintedLines(p)) == [EntryOf(p)]
  {
    assert PrintedLines(p) == [p.opener];
    GatherFirst(p.opener);
    assert EntryOf(p) == TrimSpace(p.opener) + "" == TrimSpace(p.opener);
  }

  /** One more continuation line extends the entry. */
  lemma GatherContinuation(p: Printed, q: Printed)
    requires |p.continuation| >= 1 && !StartsEntry(Last(p.continuation))
    requires q == Printed(p.opener, p.continuation[..|p.continuation| - 1])
    requires Gather(PrintedLines(q)) == [EntryOf(q)]
    ensures Gather(PrintedLines(p)) == [EntryOf(p)]
  {
    PrintedSnoc(p, q);
    GatherContinue(PrintedLines(q), EntryOf(q), Last(p.continuation));
  }

  /** A printed option is the one without its last line, plus that line. */
  lemma PrintedSnoc(p: Printed, q: Printed)
    requires |p.continuation| >= 1
    requires q == Printed(p.opener, p.continuation[..|p.continuation| - 1])
    ensures PrintedLines(p) == PrintedLines(q) + [Last(p.continuation)]
    ensures EntryOf(p) == EntryOf(q) + (" " + Last(p.continuation))
  {
    var cs, l := p.continuation, Last(p.continuation);
    assert PrintedLines(p) == PrintedLines(q) + [l];
    ContinuedSnoc(cs);
    AppendAssociates(TrimSpace(p.opener), Continued(q.continuation), " " + l);
  }

  lemma ContinuedSnoc(cs: seq<string>)
    requires |cs| >= 1
    ensures Continued(cs) == Continued(cs[..|cs| - 1]) + (" " + Last(cs))
  {
    var init, l := Continued(cs[..|cs| - 1]), Last(cs);
    AppendAssociates(init, " ", l);
  }

  lemma AppendAssociates(a: string, b: string, c: string)
    ensures a + b + c == a + (b + c)
  { }

  /** The first line opens an entry, indented or not. */
  lemma GatherFirst(o: string)
    ensures Gather([o]) == [TrimSpace(o)]
  {
    assert [o][..0] == [];
  }

  /** A line that is not indented continues the last entry, after a space. */
  lemma GatherContinue(lines: seq<string>, e: string, l: string)
    requires |lines| >= 1 && Gather(lines) == [e] && !StartsEntry(l)
    ensures Gather(lines + [l]) == [e + (" " + l)]
  {
    GatherSnoc(lines, l);
    assert [e][..0] == [] && Last([e]) == e;
  }

  /** The lines of printed options gather into one entry per option, in order. */
  lemma {:induction false} GatherPrinted(ps: seq<Printed>)
    requires |ps| >= 1 && Separable(ps)
    ensures Gather(FlatMap(ps, PrintedLines)) == EntriesOf(ps)
    decreases |ps|
  {
    if |ps| == 1 {
      GatherOnePrinted(ps);
    } else {
      var init := ps[..|ps| - 1];
      assert Separable(init) by {
        assert forall k :: 0 <= k < |init| ==> init[k] == ps[k];
      }
      GatherPrinted(init);
      GatherNextPrinted(ps, init);
    }
  }

  lemma GatherOnePrinted(ps: seq<Printed>)
    requires |ps| == 1 && Separable(ps)
    ensures Gather(FlatMap(ps, PrintedLines)) == EntriesOf(ps)
  {
    var p := ps[0];
    assert ps == [p];
    FlatMapOne(p, PrintedLines);
    GatherEntry(p);
  }

  /** One more printed option adds its entry after the others. */
  lemma GatherNextPrinted(ps: seq<Printed>, init: seq<Printed>)
    requires |ps| >= 2 && Separable(ps) && init == ps[..|ps| - 1]
    requires Gather(FlatMap(init, PrintedLines)) == EntriesOf(init)
    ensures Gather(FlatMap(ps, PrintedLines)) == EntriesOf(ps)
  {
    var last := Last(ps);
    assert last == ps[|ps| - 1];
    GatherEntry(last);
    assert FlatMap(ps, PrintedLines) == FlatMap(init, PrintedLines) + PrintedLines(last);
    GatherAppend(FlatMap(init, PrintedLines), PrintedLines(last));
  }

  /** SplitOptions recovers the options of a block of printed options: one entry
      per option, its opening line trimmed and its continuation lines appended,
      each after a space. */
  lemma SplitPrinted(ps: seq<Printed>, lines: seq<string>)
    requires |ps| >= 1 && Separable(ps)
    requires lines == FlatMap(ps, PrintedLines)
    requires forall i :: 0 <= i < |lines| ==> '\n' !in lines[i]
    ensures SplitOptions(Join(lines, "\n")) == EntriesOf(ps)
  {
    assert |lines| >= 1 by {
      assert lines == FlatMap(ps[..|ps| - 1], PrintedLines) + PrintedLines(Last(ps));
    }
    SplitJoinedLines(lines);
    GatherPrinted(ps);
  }

  /** The number of entries is one more than the number of indented lines after
      the first. */
  lemma SplitOptionsCount(options: string)
    ensures var lines := Split(options, "\n");
      |SplitOptions(options)| == 1 + |Keep(lines[1..], StartsEntry)|
  {
    GatherFollowsOpeners(Split(options, "\n"));
  }

  /** Whether a flag name is printed plainly: not empty, without spaces and
      without the characters that separate names, defaults and descriptions. */
  predicate PlainName(name: string)
  {
    && name != ""
    && '=' !in name && ',' !in name && ':' !in name && '[' !in name
    && forall i :: 0 <= i < |name| ==> !IsSpace(name[i])
  }

  /** The name of one flag of a key: up to its first '=', trimmed. */
  function FlagName(key: string): string
  {
    TrimSpace(if Contains(key, "=") then Split(key, "=")[0] else key)
  }

  /** convertToSuggest: one suggestion per name of the key before the first ": ",
      all with the text after it as description. The line must hold a ": ". */
  function ConvertToSuggest(flagLine: string): (r: seq<Suggest>)
    requires Contains(flagLine, ": ")
    ensures |r| >= 1
    ensures forall i :: 0 <= i < |r| ==> r[i].description == Cut(flagLine, ": ").1
  {
    var (key, description, _) := Cut(flagLine, ": ");
    var keys := if Contains(key, ", ") then Split(key, ", ") else [key];
    seq(|keys|, i requires 0 <= i < |keys| => Suggest(FlagName(keys[i]), description))
  }

  /** A plain name is its own flag name. */
  lemma PlainNameIsFlagName(name: string)
    requires PlainName(name)
    ensures FlagName(name) == name
  {
    MissingFirstChar(name, "=");
    TrimFuncKeeps(name, c => IsSpace(c));
  }

  /** The names of a flag line as kubectl prints it, with an optional default
      after the last one, come back in order, each with the description. */
  lemma ConvertRendered(names: seq<string>, default: string, description: string)
    requires |names| >= 1 && forall i :: 0 <= i < |names| ==> PlainName(names[i])
    requires PlainDefault(default)
    ensures Contains(Join(names, ", ") + default + ": " + description, ": ")
    ensures ConvertToSuggest(Join(names, ", ") + default + ": " + description)
      == seq(|names|, i requires 0 <= i < |names| => Suggest(names[i], description))
  {
    var key := Join(names, ", ") + default;
    var line := key + ": " + description;
    var keys := RenderedKeys(names, default);
    RenderedLineCut(names, default, description);
    RenderedKeysSplit(names, default);
    ConvertCutLine(line, key, description, keys);
    RenderedKeysNamed(names, default);
    SameNames(keys, names, description);
  }

  lemma SameNames(keys: seq<string>, names: seq<string>, description: string)
    requires |keys| == |names|
    requires forall i :: 0 <= i < |names| ==> FlagName(keys[i]) == names[i]
    ensures seq(|keys|, i requires 0 <= i < |keys| => Suggest(FlagName(keys[i]), description))
      == seq(|names|, i requires 0 <= i < |names| => Suggest(names[i], description))
  {
  }

  /** ConvertToSuggest names each piece of the key found before the ": ". */
  lemma ConvertCutLine(line: string, key: string, description: string, keys: seq<string>)
    requires Cut(line, ": ") == (key, description, true)
    requires (if Contains(key, ", ") then Split(key, ", ") else [key]) == keys
    ensures Contains(line, ": ")
    ensures ConvertToSuggest(line)
      == seq(|keys|, i requires 0 <= i < |keys| => Suggest(FlagName(keys[i]), description))
  {
  }

  /** A default as kubectl prints it after a flag's last name: nothing, or '='
      and a value without ',' or ':'. */
  predicate PlainDefault(default: string)
  {
    ',' !in default && ':' !in default && (default == "" || default[0] == '=')
  }

  /** The pieces of a printed key: the names, the last one carrying the default. */
  function RenderedKeys(names: seq<string>, default: string): (keys: seq<string>)
    requires |names| >= 1
    ensures |keys| == |names|
  {
    names[..|names| - 1] + [names[|names| - 1] + default]
  }

  lemma RenderedLineCut(names: seq<string>, default: string, description: string)
    requires |names| >= 1 && forall i :: 0 <= i < |names| ==> PlainName(names[i])
    requires PlainDefault(default)
    ensures var key := Join(names, ", ") + default;
      Cut(key + ": " + description, ": ") == (key, description, true)
  {
    RenderedKeyAvoidsColon(names, default);
    CutAtColon(Join(names, ", ") + default, description);
  }

  lemma RenderedKeyAvoidsColon(names: seq<string>, default: string)
    requires |names| >= 1 && forall i :: 0 <= i < |names| ==> PlainName(names[i])
    requires PlainDefault(default)
    ensures ':' !in Join(names, ", ") + default
  {
    JoinExtendLast(names, ", ", default);
    JoinAvoids(RenderedKeys(names, default), ", ", ':');
  }

  lemma CutAtColon(key: string, description: string)
    requires ':' !in key
    ensures Cut(key + ": " + description, ": ") == (key, description, true)
  {
    MissingFirstChar(key, ": ");
    CutBeforeUnbordered(key, ": ", description);
  }

  lemma RenderedKeysSplit(names: seq<string>, default: string)
    requires |names| >= 1 && forall i :: 0 <= i < |names| ==> PlainName(names[i])
    requires PlainDefault(default)
    ensures var key := Join(names, ", ") + default;
      (if Contains(key, ", ") then Split(key, ", ") else [key]) == RenderedKeys(names, default)
  {
    var keys := RenderedKeys(names, default);
    JoinExtendLast(names, ", ", default);
    RenderedKeysAvoidComma(names, default);
    SplitJoinUnbordered(keys, ", ");
    OnePieceIsWhole(Join(keys, ", "), ", ");
  }

  lemma RenderedKeysAvoidComma(names: seq<string>, default: string)
    requires |names| >= 1 && forall i :: 0 <= i < |names| ==> PlainName(names[i])
    requires PlainDefault(default)
    ensures forall i :: 0 <= i < |names| ==> !Contains(RenderedKeys(names, default)[i], ", ")
  {
    var keys := RenderedKeys(names, default);
    forall i | 0 <= i < |keys|
      ensures !Contains(keys[i], ", ")
    {
      assert ',' !in keys[i];
      MissingFirstChar(keys[i], ", ");
    }
  }

  lemma RenderedKeysNamed(names: seq<string>, default: string)
    requires |names| >= 1 && forall i :: 0 <= i < |names| ==> PlainName(names[i])
    requires PlainDefault(default)
    ensures forall i :: 0 <= i < |names| ==> FlagName(RenderedKeys(names, default)[i]) == names[i]
  {
    var keys, n := RenderedKeys(names, default), |names|;
    forall i | 0 <= i < n
      ensures FlagName(keys[i]) == names[i]
    {
      if i == n - 1 {
        NameWithDefault(names[i], default);
      } else {
        PlainNameIsFlagName(names[i]);
      }
    }
  }

  /** A default printed after a name does not change the flag name. */
  lemma NameWithDefault(name: string, default: string)
    requires PlainName(name) && PlainDefault(default)
    ensures FlagName(name + default) == name
  {
    PlainNameIsFlagName(name);
    if default != "" {
      assert name + default == name + "=" + default[1..];
      NameBeforeEquals(name, default[1..]);
    }
  }

  lemma NameBeforeEquals(name: string, value: string)
    requires '=' !in name
    ensures Contains(name + "=" + value, "=")
    ensures Split(name + "=" + value, "=")[0] == name
  {
    MissingFirstChar(name, "=");
    CutBeforeUnbordered(name, "=", value);
  }

  /** The line of the -f flag in a kubectl help text gives -f, then --filename. */
  lemma FilenameFlagLine(line: string, description: string)
    requires line == "-f, --filename=[]: " + description
    ensures Contains(line, ": ")
    ensures ConvertToSuggestions([line]) == [Suggest("-f", description), Suggest("--filename", description)]
  {
    var names := ["-f", "--filename"];
    FilenameNames(names);
    FilenameLineForm(line, Join(names, ", "), description);
    ConvertRendered(names, "=[]", description);
    FilenameSuggestions(names, description);
    ConvertOneLine(line);
  }

  lemma FilenameNames(names: seq<string>)
    requires names == ["-f", "--filename"]
    ensures Join(names, ", ") == "-f, --filename"
    ensures |names| >= 1 && forall i :: 0 <= i < |names| ==> PlainName(names[i])
    ensures PlainDefault("=[]")
  {
    FilenameJoin(names);
    FlagIsPlain("-f");
    FlagIsPlain("--filename");
    assert names[0] == "-f" && names[1] == "--filename";
  }

  lemma FilenameJoin(names: seq<string>)
    requires names == ["-f", "--filename"]
    ensures Join(names, ", ") == "-f, --filename"
  {
    assert names[1..] == ["--filename"];
  }

  /** A word of dashes and lower-case letters is a plain name. */
  lemma FlagIsPlain(name: string)
    requires name != "" && forall i :: 0 <= i < |name| ==> name[i] == '-' || 'a' <= name[i] <= 'z'
    ensures PlainName(name)
  {
  }

  lemma FilenameLineForm(line: string, key: string, description: string)
    requires line == "-f, --filename=[]: " + description
    requires key == "-f, --filename"
    ensures line == key + "=[]" + ": " + description
  {
  }

  lemma FilenameSuggestions(names: seq<string>, description: string)
    requires names == ["-f", "--filename"]
    ensures seq(|names|, i requires 0 <= i < |names| => Suggest(names[i], description))
      == [Suggest("-f", description), Suggest("--filename", description)]
  {
  }

  /** A single line gives its own suggestions. */
  lemma ConvertOneLine(line: string)
    requires Contains(line, ": ")
    ensures ConvertToSuggestions([line]) == ConvertToSuggest(line)
  {
    assert [line][..0] == [];
  }

  /** ConvertToSuggestions: the suggestions of every line, in line order. */
  function ConvertToSuggestions(options: seq<string>): (r: seq<Suggest>)
    requires forall i :: 0 <= i < |options| ==> Contains(options[i], ": ")
    ensures |r| >= |options|
  {
    if options == [] then []
    else ConvertToSuggestions(options[..|options| - 1]) + ConvertToSuggest(Last(options))
  }

  /** The suggestions of two blocks of lines are those of each, one after the other. */
  lemma {:induction false} ConvertToSuggestionsAppend(a: seq<string>, b: seq<string>)
    requires forall i :: 0 <= i < |a| ==> Contains(a[i], ": ")
    requires forall i :: 0 <= i < |b| ==> Contains(b[i], ": ")
    ensures ConvertToSuggestions(a + b) == ConvertToSuggestions(a) + ConvertToSuggestions(b)
    decreases |b|
  {
    if b == [] {
      assert a + b == a;
    } else {
      var init := b[..|b| - 1];
      assert (a + b)[..|a + b| - 1] == a + init;
      assert Last(a + b) == Last(b);
      ConvertToSuggestionsAppend(a, init);
    }
  }
}
