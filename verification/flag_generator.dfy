/** _tools/option_completer_generator/main.go: the development tool that turns the
    "Flags:" and "Global Flags:" sections of a kubectl help text into flag
    suggestions. */
module FlagGenerator {
  import opened GoStrings
  import opened Prompt
  import opened Results
  import OptionConv

  const FlagsHeader: string := "\nFlags:"
  const GlobalHeader: string := "\nGlobal Flags:"

  /** The tool indexes the section after "Global Flags:" without checking that
      there is one: a help text with "Flags:" must have it after that header. */
  predicate HasGlobalSection(help: string)
  {
    Contains(help, FlagsHeader) ==> Contains(Split(help, FlagsHeader)[1], GlobalHeader)
  }

  /** Neither a leading nor a trailing newline. */
  predicate NoOuterNewline(s: string)
  {
    s == "" || (s[0] != '\n' && s[|s| - 1] != '\n')
  }

  /** getFlags: the text between the "Flags:" and "Global Flags:" headers and the
      text after the latter, without surrounding newlines. A help text without
      "Flags:" ends the tool, which is the error here. */
  function GetFlags(help: string): (r: Result<(string, string)>)
    requires HasGlobalSection(help)
    ensures r.Err? <==> !Contains(help, FlagsHeader)
    ensures r.Ok? ==> NoOuterNewline(r.value.0) && NoOuterNewline(r.value.1)
  {
    var x := Split(help, FlagsHeader);
    if |x| < 2 then Err("Cannot split with Flags")
    else
      var y := Split(x[1], GlobalHeader);
      TrimmedNewlines(y[0]);
      TrimmedNewlines(y[1]);
      Ok((Trim(y[0], "\n"), Trim(y[1], "\n")))
  }

  /** The two sections are found where a help text was put together from them. */
  lemma FlagSectionsFound(prologue: string, flags: string, global: string)
    requires !Contains(prologue, FlagsHeader)
    requires !Contains(flags + GlobalHeader + global, FlagsHeader)
    requires !Contains(flags, GlobalHeader) && !Contains(global, GlobalHeader)
    ensures HasGlobalSection(prologue + FlagsHeader + flags + GlobalHeader + global)
    ensures GetFlags(prologue + FlagsHeader + flags + GlobalHeader + global)
      == Ok((Trim(flags, "\n"), Trim(global, "\n")))
  {
    var after := flags + GlobalHeader + global;
    assert prologue + FlagsHeader + flags + GlobalHeader + global == prologue + FlagsHeader + after;
    SectionAfterHeader(prologue, after);
    SectionsSplit(flags, global);
    FlagsOfPieces(prologue + FlagsHeader + after, prologue, after, flags, global);
  }

  /** Where the help text splits into a prologue and a rest, and the rest into
      the two sections, getFlags answers with the trimmed sections. */
  lemma FlagsOfPieces(help: string, prologue: string, after: string, flags: string, global: string)
    requires Split(help, FlagsHeader) == [prologue, after]
    requires Split(after, GlobalHeader) == [flags, global]
    ensures HasGlobalSection(help)
    ensures GetFlags(help) == Ok((Trim(flags, "\n"), Trim(global, "\n")))
  { }

  lemma SectionAfterHeader(prologue: string, after: string)
    requires !Contains(prologue, FlagsHeader) && !Contains(after, FlagsHeader)
    ensures Split(prologue + FlagsHeader + after, FlagsHeader) == [prologue, after]
  {
    assert prologue + FlagsHeader + after == Join([prologue, after], FlagsHeader);
    SplitJoinUnbordered([prologue, after], FlagsHeader);
  }

  lemma SectionsSplit(flags: string, global: string)
    requires !Contains(flags, GlobalHeader) && !Contains(global, GlobalHeader)
    ensures Split(flags + GlobalHeader + global, GlobalHeader) == [flags, global]
  {
    assert flags + GlobalHeader + global == Join([flags, global], GlobalHeader);
    SplitJoinUnbordered([flags, global], GlobalHeader);
  }

  /** Trimming newlines leaves none at either end. */
  lemma TrimmedNewlines(s: string)
    ensures NoOuterNewline(Trim(s, "\n"))
  {
    var r := Trim(s, "\n");
    assert r == "" || (!InCutset("\n")(r[0]) && !InCutset("\n")(r[|r| - 1]));
  }

  /** The suggestions for some flag names, all with one description. */
  function Named(keys: seq<string>, description: string): (r: seq<Suggest>)
    ensures |r| == |keys|
    ensures forall i :: 0 <= i < |r| ==> r[i] == Suggest(keys[i], description)
  {
    seq(|keys|, i requires 0 <= i < |keys| => Suggest(keys[i], description))
  }

  /** The description of a flag line: everything after its first ": ", later
      ": " put back. */
  function Description(flagLine: string): (r: string)
    ensures r == Cut(flagLine, ": ").1
  {
    JoinTailIsAfter(flagLine, ": ");
    Join(Split(flagLine, ": ")[1..], ": ")
  }

  /** The names of a key as the tool computes them: cut at the first '[', then
      ' ', '[' and '=' trimmed from both ends. */
  function KeyAsWritten(key: string): string
  {
    Trim(Split(key, "[")[0], " [=")
  }

  /** convertToSuggest as written: a default printed as "=value" after the last
      name stays part of that name unless it is empty. */
  function ConvertToSuggestAsWritten(flagLine: string): (r: seq<Suggest>)
    ensures |r| >= 1
    ensures forall i :: 0 <= i < |r| ==> r[i].description == Cut(flagLine, ": ").1
  {
    var key := Split(flagLine, ": ")[0];
    Named(Split(KeyAsWritten(key), ", "), Description(flagLine))
  }

  /** The names of a key with the default removed: cut at the first '[', then at
      the first '=', then trimmed as before. */
  function FlagKey(key: string): string
  {
    Trim(Split(Split(key, "[")[0], "=")[0], " [=")
  }

  /** convertToSuggest, with every default dropped from the names. */
  function ConvertToSuggest(flagLine: string): (r: seq<Suggest>)
    ensures |r| >= 1
    ensures forall i :: 0 <= i < |r| ==> r[i].description == Cut(flagLine, ": ").1
  {
    var key := Split(flagLine, ": ")[0];
    Named(Split(FlagKey(key), ", "), Description(flagLine))
  }

  /** Indentation: spaces only. */
  predicate Indent(s: string)
  {
    forall i :: 0 <= i < |s| ==> s[i] == ' '
  }

  /** What kubectl prints after a flag's last name: nothing, "[=default]" or
      "=default", never a ':'. */
  predicate PlainSuffix(suffix: string)
  {
    ':' !in suffix && (suffix == "" || suffix[0] == '[' || suffix[0] == '=')
  }

  /** The flags of a help line, whatever default is printed after them, come back
      in order, each with the description. */
  lemma ConvertRendered(indent: string, names: seq<string>, suffix: string, description: string)
    requires Indent(indent) && PlainSuffix(suffix)
    requires |names| >= 1 && forall i :: 0 <= i < |names| ==> OptionConv.PlainName(names[i])
    ensures ConvertToSuggest(indent + Join(names, ", ") + suffix + ": " + description)
      == Named(names, description)
  {
    var key := indent + Join(names, ", ") + suffix;
    RenderedKeyFree(indent, names, suffix);
    KeyBeforeColon(key, description);
    RenderedFlagKey(indent, names, suffix);
    NamesSplit(names);
    ConvertParts(key + ": " + description, key, description, names);
  }

  /** ConvertToSuggest names the pieces of the key found before the first ": ". */
  lemma ConvertParts(line: string, key: string, description: string, names: seq<string>)
    requires Cut(line, ": ") == (key, description, true) && Split(line, ": ")[0] == key
    requires Split(FlagKey(key), ", ") == names
    ensures ConvertToSuggest(line) == Named(names, description)
  {
  }

  /** The tool as written names the pieces of the key found before the first ": ". */
  lemma ConvertPartsAsWritten(line: string, key: string, description: string, names: seq<string>)
    requires Cut(line, ": ") == (key, description, true) && Split(line, ": ")[0] == key
    requires Split(KeyAsWritten(key), ", ") == names
    ensures ConvertToSuggestAsWritten(line) == Named(names, description)
  {
  }

  /** The key of a rendered line loses its indentation and its default. */
  lemma RenderedFlagKey(indent: string, names: seq<string>, suffix: string)
    requires Indent(indent) && PlainSuffix(suffix)
    requires |names| >= 1 && forall i :: 0 <= i < |names| ==> OptionConv.PlainName(names[i])
    ensures FlagKey(indent + Join(names, ", ") + suffix) == Join(names, ", ")
  {
    RenderedKeyFree(indent, names, suffix);
    KeyDropsSuffix(indent + Join(names, ", "), suffix);
    TrimIndent(indent, names);
  }

  /** The rendered key has no ':', and no '[' or '=' before the suffix. */
  lemma RenderedKeyFree(indent: string, names: seq<string>, suffix: string)
    requires Indent(indent) && PlainSuffix(suffix)
    requires |names| >= 1 && forall i :: 0 <= i < |names| ==> OptionConv.PlainName(names[i])
    ensures ':' !in indent + Join(names, ", ") + suffix
    ensures '[' !in indent + Join(names, ", ") && '=' !in indent + Join(names, ", ")
  {
    JoinAvoids(names, ", ", ':');
    JoinAvoids(names, ", ", '[');
    JoinAvoids(names, ", ", '=');
  }

  lemma KeyBeforeColon(key: string, description: string)
    requires ':' !in key
    ensures Cut(key + ": " + description, ": ") == (key, description, true)
    ensures Split(key + ": " + description, ": ")[0] == key
  {
    MissingFirstChar(key, ": ");
    CutBeforeUnbordered(key, ": ", description);
  }

  /** Cutting at '[' and then at '=' leaves the part before the suffix. */
  lemma KeyDropsSuffix(p: string, suffix: string)
    requires '[' !in p && '=' !in p
    requires suffix == "" || suffix[0] == '[' || suffix[0] == '='
    ensures Split(Split(p + suffix, "[")[0], "=")[0] == p
  {
    CleanHead(p, suffix, "[");
    var u := Split(suffix, "[")[0];
    BracketHead(suffix);
    CleanHead(p, u, "=");
    EmptyHead(u, "=");
  }

  /** What remains of a suffix before its first '[' is empty or starts with '='. */
  lemma BracketHead(suffix: string)
    requires suffix == "" || suffix[0] == '[' || suffix[0] == '='
    ensures var u := Split(suffix, "[")[0]; u == "" || u[0] == '='
  {
    if suffix != "" && suffix[0] == '[' {
      EmptyHead(suffix, "[");
    } else if suffix != "" {
      var (u, rest, found) := Cut(suffix, "[");
      if found && u == "" {
        assert suffix[0] == (u + "[" + rest)[0];
      } else if found {
        assert suffix[0] == (u + "[" + rest)[0];
      }
    }
  }

  /** Trimming removes the indentation and keeps the names. */
  lemma TrimIndent(indent: string, names: seq<string>)
    requires Indent(indent)
    requires |names| >= 1 && forall i :: 0 <= i < |names| ==> OptionConv.PlainName(names[i])
    ensures Trim(indent + Join(names, ", "), " [=") == Join(names, ", ")
  {
    JoinEnds(names);
    TrimIndentOf(indent, Join(names, ", "));
  }

  /** A join of plain names neither starts nor ends with ' ', '[' or '='. */
  lemma JoinEnds(names: seq<string>)
    requires |names| >= 1 && forall i :: 0 <= i < |names| ==> OptionConv.PlainName(names[i])
    ensures var j := Join(names, ", ");
      j != "" && j[0] !in " [=" && j[|j| - 1] !in " [="
  {
    var first, last := names[0], Last(names);
    assert OptionConv.PlainName(first) && OptionConv.PlainName(last);
    assert !IsSpace(first[0]) && !IsSpace(last[|last| - 1]);
    JoinFirstLast(names, ", ");
  }

  /** Splitting the joined names at ", " gives them back. */
  lemma NamesSplit(names: seq<string>)
    requires |names| >= 1 && forall i :: 0 <= i < |names| ==> OptionConv.PlainName(names[i])
    ensures Split(Join(names, ", "), ", ") == names
  {
    forall i | 0 <= i < |names|
      ensures !Contains(names[i], ", ")
    {
      MissingFirstChar(names[i], ", ");
    }
    SplitJoinUnbordered(names, ", ");
  }

  /** What the tool as written still gets right: when the last name is followed
      by nothing, by a bare '=' or by "[=default]", the names come back in order,
      each with the description. */
  lemma ConvertRenderedAsWritten(indent: string, names: seq<string>, suffix: string, description: string)
    requires Indent(indent) && ':' !in suffix && (suffix == "" || suffix == "=" || suffix[0] == '[')
    requires |names| >= 1 && forall i :: 0 <= i < |names| ==> OptionConv.PlainName(names[i])
    ensures ConvertToSuggestAsWritten(indent + Join(names, ", ") + suffix + ": " + description)
      == Named(names, description)
  {
    var key := indent + Join(names, ", ") + suffix;
    RenderedKeyFree(indent, names, suffix);
    KeyBeforeColon(key, description);
    RenderedKeyAsWritten(indent, names, suffix);
    NamesSplit(names);
    ConvertPartsAsWritten(key + ": " + description, key, description, names);
  }

  lemma RenderedKeyAsWritten(indent: string, names: seq<string>, suffix: string)
    requires Indent(indent) && ':' !in suffix && (suffix == "" || suffix == "=" || suffix[0] == '[')
    requires |names| >= 1 && forall i :: 0 <= i < |names| ==> OptionConv.PlainName(names[i])
    ensures KeyAsWritten(indent + Join(names, ", ") + suffix) == Join(names, ", ")
  {
    var p := indent + Join(names, ", ");
    RenderedKeyFree(indent, names, suffix);
    if suffix == "" {
      assert p + suffix == p;
      NoBracket(p);
      TrimIndent(indent, names);
    } else if suffix == "=" {
      NoBracket(p + suffix);
      JoinEnds(names);
      TrimIndentOfLast(indent, Join(names, ", "));
    } else {
      CleanHead(p, suffix, "[");
      EmptyHead(suffix, "[");
      assert p + "" == p;
      TrimIndent(indent, names);
    }
  }

  /** Trimming removes the indentation and a trailing '='. */
  lemma TrimIndentOfLast(indent: string, t: string)
    requires Indent(indent)
    requires t != "" && t[0] !in " [=" && t[|t| - 1] !in " [="
    ensures Trim(indent + t + "=", " [=") == t
  {
    var drop := InCutset(" [=");
    assert forall i :: 0 <= i < |indent| ==> drop(indent[i]);
    assert !drop(t[0]) && !drop(t[|t| - 1]) && drop('=');
    TrimFuncPrefixAndLast(indent, t, '=', drop);
  }

  /** The tool as written on a line whose last flag prints a non-empty default
      without brackets: the default stays in that flag's name. */
  lemma AsWrittenKeepsDefault(indent: string, names: seq<string>, value: string, description: string)
    requires Indent(indent)
    requires |names| >= 1 && forall i :: 0 <= i < |names| ==> OptionConv.PlainName(names[i])
    requires value != "" && ':' !in value && '[' !in value && ',' !in value
    requires value[|value| - 1] !in " [="
    ensures ConvertToSuggestAsWritten(indent + Join(names, ", ") + "=" + value + ": " + description)
      == Named(names[..|names| - 1] + [Last(names) + "=" + value], description)
  {
    var key := indent + Join(names, ", ") + "=" + value;
    RenderedKeyFree(indent, names, "");
    assert ':' !in key;
    KeyBeforeColon(key, description);
    KeyAsWrittenKeepsDefault(indent, names, value);
    DefaultInLastName(names, value);
    ConvertPartsAsWritten(key + ": " + description, key, description,
      names[..|names| - 1] + [Last(names) + "=" + value]);
  }

  lemma KeyAsWrittenKeepsDefault(indent: string, names: seq<string>, value: string)
    requires Indent(indent)
    requires |names| >= 1 && forall i :: 0 <= i < |names| ==> OptionConv.PlainName(names[i])
    requires value != "" && '[' !in value && value[|value| - 1] !in " [="
    ensures KeyAsWritten(indent + Join(names, ", ") + "=" + value) == Join(names, ", ") + "=" + value
  {
    var key := indent + Join(names, ", ") + "=" + value;
    RenderedKeyFree(indent, names, "");
    NoBracket(key);
    TrimIndentKeepsDefault(indent, names, value);
  }

  lemma NoBracket(key: string)
    requires '[' !in key
    ensures Split(key, "[")[0] == key
  {
    SingleCharContains(key, "[");
    OnePieceIsWhole(key, "[");
  }

  lemma TrimIndentKeepsDefault(indent: string, names: seq<string>, value: string)
    requires Indent(indent)
    requires |names| >= 1 && forall i :: 0 <= i < |names| ==> OptionConv.PlainName(names[i])
    requires value != "" && value[|value| - 1] !in " [="
    ensures Trim(indent + Join(names, ", ") + "=" + value, " [=") == Join(names, ", ") + "=" + value
  {
    var j := Join(names, ", ");
    JoinEnds(names);
    var rest := j + "=" + value;
    DefaultEnds(rest, j, value);
    Regroup(indent, j, "=", value);
    TrimIndentOf(indent, rest);
  }

  /** Names followed by a default keep the first name's first character and
      the default's last. */
  lemma DefaultEnds(rest: string, j: string, value: string)
    requires rest == j + "=" + value
    requires j != "" && j[0] !in " [="
    requires value != "" && value[|value| - 1] !in " [="
    ensures rest != "" && rest[0] !in " [=" && rest[|rest| - 1] !in " [="
  {
    assert rest[0] == j[0];
    assert rest[|rest| - 1] == value[|value| - 1];
  }

  /** Trimming an indented text whose ends are kept removes just the indentation. */
  lemma TrimIndentOf(indent: string, t: string)
    requires Indent(indent)
    requires t != "" && t[0] !in " [=" && t[|t| - 1] !in " [="
    ensures Trim(indent + t, " [=") == t
  {
    var drop := InCutset(" [=");
    assert forall i :: 0 <= i < |indent| ==> drop(indent[i]);
    assert !drop(t[0]) && !drop(t[|t| - 1]);
    TrimFuncPrefix(indent, t, drop);
  }

  /** The names joined with a default after the last split back with the default
      still attached to the last name. */
  lemma DefaultInLastName(names: seq<string>, value: string)
    requires |names| >= 1 && forall i :: 0 <= i < |names| ==> OptionConv.PlainName(names[i])
    requires ',' !in value && ':' !in value
    ensures Split(Join(names, ", ") + "=" + value, ", ") == names[..|names| - 1] + [Last(names) + "=" + value]
  {
    var default := "=" + value;
    var key := Join(names, ", ") + default;
    assert Join(names, ", ") + "=" + value == key;
    assert Last(names) + "=" + value == names[|names| - 1] + default;
    assert OptionConv.PlainDefault(default);
    OptionConv.RenderedKeysSplit(names, default);
    OnePieceIsWhole(key, ", ");
  }

  /** The server flag among kubectl's global flags: the tool as written names it
      --server="". */
  lemma ServerFlagAsWritten(line: string, description: string)
    requires line == "  -s, --server=\"\": " + description
    ensures ConvertToSuggestAsWritten(line)
      == [Suggest("-s", description), Suggest("--server=\"\"", description)]
  {
    ServerLineForm(line, description);
    ServerConvertedAsWritten(line, description);
    TwoNamed(["-s", "--server=\"\""], description);
  }

  /** The corrected conversion names the server flag --server. */
  lemma ServerFlag(line: string, description: string)
    requires line == "  -s, --server=\"\": " + description
    ensures ConvertToSuggest(line) == [Suggest("-s", description), Suggest("--server", description)]
  {
    ServerLineForm(line, description);
    ServerConverted(line, description);
    TwoNamed(["-s", "--server"], description);
  }

  /** The server line is rendered from its two names and the default "". */
  lemma ServerLineForm(line: string, description: string)
    requires line == "  -s, --server=\"\": " + description
    ensures line == "  " + Join(["-s", "--server"], ", ") + "=\"\"" + ": " + description
    ensures line == "  " + Join(["-s", "--server"], ", ") + "=" + "\"\"" + ": " + description
  {
    var names := ["-s", "--server"];
    assert names[1..] == ["--server"];
    assert Join(names, ", ") == "-s, --server";
  }

  lemma ServerConverted(line: string, description: string)
    requires line == "  " + Join(["-s", "--server"], ", ") + "=\"\"" + ": " + description
    ensures ConvertToSuggest(line) == Named(["-s", "--server"], description)
  {
    var names := ["-s", "--server"];
    ServerPlain(names);
    ConvertRendered("  ", names, "=\"\"", description);
  }

  lemma ServerConvertedAsWritten(line: string, description: string)
    requires line == "  " + Join(["-s", "--server"], ", ") + "=" + "\"\"" + ": " + description
    ensures ConvertToSuggestAsWritten(line) == Named(["-s", "--server=\"\""], description)
  {
    var names := ["-s", "--server"];
    ServerPlain(names);
    AsWrittenKeepsDefault("  ", names, "\"\"", description);
    ServerWithDefault(names);
  }

  lemma TwoNamed(names: seq<string>, description: string)
    requires |names| == 2
    ensures Named(names, description) == [Suggest(names[0], description), Suggest(names[1], description)]
  {
    var r := Named(names, description);
    assert r == [r[0], r[1]];
  }

  lemma ServerPlain(names: seq<string>)
    requires names == ["-s", "--server"]
    ensures |names| >= 1 && forall i :: 0 <= i < |names| ==> OptionConv.PlainName(names[i])
  {
    assert OptionConv.PlainName(names[0]);
    assert OptionConv.PlainName(names[1]);
  }

  lemma ServerWithDefault(names: seq<string>)
    requires names == ["-s", "--server"]
    ensures names[..|names| - 1] + [Last(names) + "=" + "\"\""] == ["-s", "--server=\"\""]
  {
    assert names[..1] == ["-s"];
    assert "--server" + "=" + "\"\"" == "--server=\"\"";
  }

  /** The tool as written on a line from kubectl's own help: `-w` and `--watch`,
      their "[=false]" default dropped. */
  lemma WatchFlagAsWritten(line: string, description: string)
    requires line == "  -w, --watch[=false]: " + description
    ensures ConvertToSuggestAsWritten(line) == [Suggest("-w", description), Suggest("--watch", description)]
  {
    var names := ["-w", "--watch"];
    assert names[1..] == ["--watch"];
    assert Join(names, ", ") == "-w, --watch";
    assert line == "  " + Join(names, ", ") + "[=false]" + ": " + description;
    assert OptionConv.PlainName(names[0]) && OptionConv.PlainName(names[1]);
    ConvertRenderedAsWritten("  ", names, "[=false]", description);
    TwoNamed(names, description);
  }

  /** The lines of a section, outer newlines trimmed first. */
  function SectionLines(flagText: string): seq<string>
  {
    Split(Trim(flagText, "\n"), "\n")
  }

  /** convertToSuggestions as written: the suggestions of every line of the
      section, in line order, each line converted as the tool does. */
  function ConvertToSuggestionsAsWritten(flagText: string): seq<Suggest>
  {
    FlatMap(SectionLines(flagText), ConvertToSuggestAsWritten)
  }

  /** convertToSuggestions with the corrected line conversion. */
  function ConvertToSuggestions(flagText: string): seq<Suggest>
  {
    FlatMap(SectionLines(flagText), ConvertToSuggest)
  }

  /** A section made of lines converts line by line, as written and corrected. */
  lemma ConvertJoinedLines(lines: seq<string>)
    requires |lines| >= 1 && lines[0] != "" && Last(lines) != ""
    requires forall i :: 0 <= i < |lines| ==> '\n' !in lines[i]
    ensures ConvertToSuggestionsAsWritten(Join(lines, "\n")) == FlatMap(lines, ConvertToSuggestAsWritten)
    ensures ConvertToSuggestions(Join(lines, "\n")) == FlatMap(lines, ConvertToSuggest)
  {
    JoinedLinesKept(lines);
    SplitJoinedLines(lines);
  }

  /** A section holding only the server flag: the tool as written offers
      --server="", the corrected converter --server. */
  lemma ServerSection(line: string, description: string)
    requires line == "  -s, --server=\"\": " + description && '\n' !in description
    ensures ConvertToSuggestionsAsWritten(line)
      == [Suggest("-s", description), Suggest("--server=\"\"", description)]
    ensures ConvertToSuggestions(line) == [Suggest("-s", description), Suggest("--server", description)]
  {
    var lines := [line];
    assert Join(lines, "\n") == line;
    assert '\n' !in line by {
      var head := "  -s, --server=\"\": ";
      assert forall i :: 0 <= i < |head| ==> head[i] != '\n';
      assert forall i :: 0 <= i < |line| ==> line[i] != '\n' by {
        assert forall i :: |head| <= i < |line| ==> line[i] == description[i - |head|];
      }
    }
    ConvertJoinedLines(lines);
    FlatMapOne(line, ConvertToSuggestAsWritten);
    FlatMapOne(line, ConvertToSuggest);
    ServerFlagAsWritten(line, description);
    ServerFlag(line, description);
  }

  /** Trimming outer newlines keeps a join of lines that do not start or end it
      with an empty line. */
  lemma JoinedLinesKept(lines: seq<string>)
    requires |lines| >= 1 && lines[0] != "" && Last(lines) != ""
    requires forall i :: 0 <= i < |lines| ==> '\n' !in lines[i]
    ensures Trim(Join(lines, "\n"), "\n") == Join(lines, "\n")
  {
    var text := Join(lines, "\n");
    JoinFirstLast(lines, "\n");
    assert text[0] in lines[0];
    assert text[|text| - 1] in Last(lines);
    TrimFuncKeeps(text, InCutset("\n"));
  }

}
