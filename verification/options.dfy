/** The flag completion of kube/option.go: which flags a command offers, and how
    the word being typed narrows them. */
module Options {
  import opened GoStrings
  import opened Prompt

  /** The flag tables of kube/option.go:43-121. */
  datatype FlagTable = HelpFlags | GetFlags | DescribeFlags | CreateFlags | ClusterInfoFlags | ExplainFlags

  function Size(t: FlagTable): nat
  {
    match t
    case HelpFlags => 2
    case GetFlags => 26
    case DescribeFlags => 9
    case CreateFlags => 22
    case ClusterInfoFlags => 1
    case ExplainFlags => 2
  }

  /** The entry at position `i` of a flag table. */
  function Entry(t: FlagTable, i: nat): Suggest
    requires i < Size(t)
  {
    match t
    case HelpFlags => HelpAt(i)
    case GetFlags => GetAt(i)
    case DescribeFlags => DescribeAt(i)
    case CreateFlags => CreateAt(i)
    case ClusterInfoFlags => ClusterInfoAt(i)
    case ExplainFlags => ExplainAt(i)
  }

  /** The entries of a flag table, in source order. */
  function Entries(t: FlagTable): (r: seq<Suggest>)
    ensures |r| == Size(t)
  {
    seq(Size(t), i requires 0 <= i < Size(t) => Entry(t, i))
  }

  /** The flag table offered after a command word (kube/option.go:19-31): the
      help flags for any command without a table of its own. */
  function FlagsFor(command: string): FlagTable
  {
    if command == "get" then GetFlags
    else if command == "describe" then DescribeFlags
    else if command == "create" then CreateFlags
    else if command == "cluster-info" then ClusterInfoFlags
    else if command == "explain" then ExplainFlags
    else HelpFlags
  }

  /** The table whose flags are offered for a whole line of words. */
  function TableFor(args: seq<string>): FlagTable
  {
    if |args| <= 1 then HelpFlags else FlagsFor(args[0])
  }

  /** The suggestions that name a long flag. */
  function LongOnly(xs: seq<Suggest>): (r: seq<Suggest>)
    ensures Subsequence(r, xs)
    ensures forall s :: s in r <==> s in xs && HasPrefix(s.text, "--")
  {
    FilterHasPrefix(xs, "--", false)
  }

  /** optionCompleter: the flags for the words typed so far, `long` when the word
      being typed starts with two dashes. A line of at most one word gets the help
      flags unfiltered; otherwise the dashes of the last word are trimmed and what
      remains is looked for, ignoring case, anywhere in each flag. */
  function OptionCompleter(args: seq<string>, long: bool): (r: seq<Suggest>)
    ensures Subsequence(r, Entries(TableFor(args)))
    ensures long ==> forall s :: s in r ==> HasPrefix(s.text, "--")
    ensures |args| <= 1 ==> forall s :: s in r <==> s in Entries(HelpFlags) && (long ==> HasPrefix(s.text, "--"))
    ensures |args| >= 2 ==> forall s :: s in r <==>
      && s in Entries(FlagsFor(args[0]))
      && (long ==> HasPrefix(s.text, "--"))
      && Contains(Upper(s.text), Upper(TrimLeft(Last(args), "-")))
  {
    var table := Entries(TableFor(args));
    if |args| <= 1 then
      if long then LongOnly(table) else SubsequenceOfItself(table); table
    else if long then
      TrimLeftRepeatedCutset(Last(args), '-');
      var r := FilterContains(LongOnly(table), TrimLeft(Last(args), "--"), true);
      SubsequenceTransitive(r, LongOnly(table), table);
      r
    else
      FilterContains(table, TrimLeft(Last(args), "-"), true)
  }

  /** With a command on the line, the long-flag suggestions are exactly the
      short-flag suggestions that name a long flag, in the same order. */
  lemma LongIsShortNarrowed(args: seq<string>)
    requires |args| >= 2
    ensures OptionCompleter(args, true) == LongOnly(OptionCompleter(args, false))
  {
    var table := Entries(FlagsFor(args[0]));
    var word := TrimLeft(Last(args), "-");
    var long, sub := PrefixMatcher("--", false), SubstringMatcher(word, true);
    TrimLeftRepeatedCutset(Last(args), '-');
    KeepKeep(table, long, sub, s => long(s) && sub(s));
    KeepKeep(table, sub, long, s => long(s) && sub(s));
  }

  /** A line of one word offers every help flag, or the long ones when asked. */
  lemma HelpWithoutCommand(word: string)
    ensures OptionCompleter([word], false) == [Suggest("-h", ""), Suggest("--help", "")]
    ensures OptionCompleter([word], true) == [Suggest("--help", "")]
  {
    var short, long := Suggest("-h", ""), Suggest("--help", "");
    var table := Entries(HelpFlags);
    assert table == [short, long];
    var p := PrefixMatcher("--", false);
    assert !p(short) by { assert short.text[1] != '-'; }
    assert p(long) by { assert long.text[..2] == "--"; }
    assert Keep([short], p) == [] by { assert [short][..0] == []; }
    assert Keep([short, long], p) == Keep([short], p) + [long] by { assert [short, long][..1] == [short]; }
  }

  /** The flags every command accepts (kube/option.go:43-46), by position. */
  function HelpAt(i: nat): Suggest
    requires i < 2
  {
    match i
    case 0 => Suggest("-h", "")
    case _ => Suggest("--help", "")
  }

  /** The flags of `get` (kube/option.go:48-75), by position. */
  function GetAt(i: nat): Suggest
    requires i < 26
  {
    match i
    case 0 => Suggest("--all-namespaces", "If present, list the requested object(s) across all namespaces. Namespace in current context is ignored even if specified with --namespace.")
    case 1 => Suggest("--allow-missing-template-keys", "If true, ignore any errors in templates when a field or map key is missing in the template. Only applies to golang and jsonpath output formats.")
    case 2 => Suggest("--export", "If true, use 'export' for the resources.  Exported resources are stripped of cluster-specific information.")
    case 3 => Suggest("-f", "Filename, directory, or URL to files identifying the resource to get from a server.")
    case 4 => Suggest("--filename", "Filename, directory, or URL to files identifying the resource to get from a server.")
    case 5 => Suggest("--include-extended-apis", "If true, include definitions of new APIs via calls to the API server. [default true]")
    case 6 => Suggest("-L", "Accepts a comma separated list of labels that are going to be presented as columns. Names are case-sensitive. You can also use multiple flag options like -L label1 -L label2...")
    case 7 => Suggest("--label-columns", "Accepts a comma separated list of labels that are going to be presented as columns. Names are case-sensitive. You can also use multiple flag options like -L label1 -L label2...")
    case 8 => Suggest("--no-headers", "When using the default or custom-column output format, don't print headers.")
    case 9 => Suggest("-o", "Output format. One of: json|yaml|wide|name|custom-columns=...|custom-columns-file=...|go-template=...|go-template-file=...|jsonpath=...|jsonpath-file=...")
    case 10 => Suggest("--output", "Output format. One of: json|yaml|wide|name|custom-columns=...|custom-columns-file=...|go-template=...|go-template-file=...|jsonpath=...|jsonpath-file=...")
    case 11 => Suggest("--output-version", "Output the formatted object with the given group version (for ex: 'extensions/v1beta1').")
    case 12 => Suggest("--raw", "Raw URI to request from the server.  Uses the transport specified by the kubeconfig file.")
    case 13 => Suggest("-R", "Process the directory used in -f, --filename recursively. Useful when you want to manage related manifests organized within the same directory.")
    case 14 => Suggest("--recursive", "Process the directory used in -f, --filename recursively. Useful when you want to manage related manifests organized within the same directory.")
    case 15 => Suggest("-l", "Selector (label query) to filter on")
    case 16 => Suggest("--selector", "Selector (label query) to filter on")
    case 17 => Suggest("-a", "When printing, show all resources (default hide terminated pods.)")
    case 18 => Suggest("--show-all", "When printing, show all resources (default hide terminated pods.)")
    case 19 => Suggest("--show-kind", "If present, list the resource type for the requested object(s).")
    case 20 => Suggest("--show-labels", "When printing, show all labels as the last column (default hide labels column)")
    case 21 => Suggest("--sort-by", "If non-empty, sort list types using this field specification.  The field specification is expressed as a JSONPath expression (e.g. '{.metadata.name}'). The field in the API resource specified by this JSONPath expression must be an integer or a string.")
    case 22 => Suggest("--template", "Template string or path to template file to use when -o=go-template, -o=go-template-file. The template format is golang templates.")
    case 23 => Suggest("-w", "After listing/getting the requested object, watch for changes.")
    case 24 => Suggest("--watch", "After listing/getting the requested object, watch for changes.")
    case _ => Suggest("--watch-only", "Watch for changes to the requested object(s), without listing/getting first.")
  }

  /** The flags of `describe` (kube/option.go:77-87), by position. */
  function DescribeAt(i: nat): Suggest
    requires i < 9
  {
    match i
    case 0 => Suggest("--all-namespaces", "If present, list the requested object(s) across all namespaces. Namespace in current context is ignored even if specified with --namespace.")
    case 1 => Suggest("-f", "Filename, directory, or URL to files containing the resource to describe")
    case 2 => Suggest("--filename", "Filename, directory, or URL to files containing the resource to describe")
    case 3 => Suggest("--include-extended-apis", "If true, include definitions of new APIs via calls to the API server. [default true]")
    case 4 => Suggest("-R", "Process the directory used in -f, --filename recursively. Useful when you want to manage related manifests organized within the same directory.")
    case 5 => Suggest("--recursive", "Process the directory used in -f, --filename recursively. Useful when you want to manage related manifests organized within the same directory.")
    case 6 => Suggest("-l", "Selector (label query) to filter on")
    case 7 => Suggest("--selector", "Selector (label query) to filter on")
    case _ => Suggest("--show-events", "If true, display events related to the described object.")
  }

  /** The flags of `create` (kube/option.go:89-112), by position. */
  function CreateAt(i: nat): Suggest
    requires i < 22
  {
    match i
    case 0 => Suggest("--allow-missing-template-keys", "If true, ignore any errors in templates when a field or map key is missing in the template. Only applies to golang and jsonpath output formats.")
    case 1 => Suggest("--dry-run", "If true, only print the object that would be sent, without sending it.")
    case 2 => Suggest("--edit", "Edit the API resource before creating")
    case 3 => Suggest("-f", "Filename, directory, or URL to files to use to create the resource")
    case 4 => Suggest("--filename", "Filename, directory, or URL to files to use to create the resource")
    case 5 => Suggest("--include-extended-apis", "If true, include definitions of new APIs via calls to the API server. [default true]")
    case 6 => Suggest("--no-headers", "When using the default or custom-column output format, don't print headers.")
    case 7 => Suggest("-o", "Output format. One of: json|yaml|wide|name|custom-columns=...|custom-columns-file=...|go-template=...|go-template-file=...|jsonpath=...|jsonpath-file=...")
    case 8 => Suggest("--output", "Output format. One of: json|yaml|wide|name|custom-columns=...|custom-columns-file=...|go-template=...|go-template-file=...|jsonpath=...|jsonpath-file=...")
    case 9 => Suggest("--output-version", "Output the formatted object with the given group version (for ex: 'extensions/v1beta1').")
    case 10 => Suggest("--record", "Record current kubectl command in the resource annotation. If set to false, do not record the command. If set to true, record the command. If not set, default to updating the existing annotation value only if one already exists.")
    case 11 => Suggest("-R", "Process the directory used in -f, --filename recursively. Useful when you want to manage related manifests organized within the same directory.")
    case 12 => Suggest("--recursive", "Process the directory used in -f, --filename recursively. Useful when you want to manage related manifests organized within the same directory.")
    case 13 => Suggest("--save-config", "If true, the configuration of current object will be saved in its annotation. This is useful when you want to perform kubectl apply on this object in the future.")
    case 14 => Suggest("--schema-cache-dir", "If non-empty, load/store cached API schemas in this directory, default is '$HOME/.kube/schema'")
    case 15 => Suggest("-a", "When printing, show all resources (default hide terminated pods.)")
    case 16 => Suggest("--show-all", "When printing, show all resources (default hide terminated pods.)")
    case 17 => Suggest("--show-labels", "When printing, show all labels as the last column (default hide labels column)")
    case 18 => Suggest("--sort-by", "If non-empty, sort list types using this field specification.  The field specification is expressed as a JSONPath expression (e.g. '{.metadata.name}'). The field in the API resource specified by this JSONPath expression must be an integer or a string.")
    case 19 => Suggest("--template", "Template string or path to template file to use when -o=go-template, -o=go-template-file. The template format is golang templates [http://golang.org/pkg/text/template/#pkg-overview].")
    case 20 => Suggest("--validate", "If true, use a schema to validate the input before sending it")
    case _ => Suggest("--windows-line-endings", "Only relevant if --edit=true. Use Windows line-endings (default Unix line-endings)")
  }

  /** The flags of `cluster-info` (kube/option.go:114-116), by position. */
  function ClusterInfoAt(i: nat): Suggest
    requires i < 1
  {
    match i
    case _ => Suggest("--include-extended-apis", "If true, include definitions of new APIs via calls to the API server. [default true]")
  }

  /** The flags of `explain` (kube/option.go:118-121), by position. */
  function ExplainAt(i: nat): Suggest
    requires i < 2
  {
    match i
    case 0 => Suggest("--include-extended-apis", "If true, include definitions of new APIs via calls to the API server. [default true]")
    case _ => Suggest("--recursive", "Print the fields of fields (Currently only 1 level deep)")
  }
}
