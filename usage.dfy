/** The usage screen of a Tanzu plugin command, as rendered by the text
    template `CmdTemplate` of plugin/usage.go. The template is read as a pure
    function from one command record to a string: `Render` follows it piece by
    piece, and the lemmas below state what that string is. */
module Usage {
  import opened Seqs

  /** The values the template reads from a cobra command. Cobra derives most
      of them (use line, command path, paddings, the `Has*` and `Is*` tests,
      the flag usage texts); here they are given. Children are commands too:
      the template reads their name, short text, paddings and two tests. */
  datatype Command = Command(
    name: string,
    short: string,
    useLine: string,
    commandPath: string,
    runnable: bool,
    annotations: map<string, string>,
    aliases: seq<string>,
    nameAndAliases: string,
    example: string,
    hasExample: bool,
    commands: seq<Command>,
    hasAvailableSubCommands: bool,
    hasHelpSubCommands: bool,
    isAvailableCommand: bool,
    isAdditionalHelpTopicCommand: bool,
    namePadding: int,
    commandPathPadding: int,
    hasAvailableLocalFlags: bool,
    localFlagUsages: string,
    hasAvailableInheritedFlags: bool,
    inheritedFlagUsages: string)

  /** The helpers bound in `TemplateFuncs` whose bodies live in another
      package: they stay uninterpreted. (`beginsWith` is `BeginsWith` below.) */
  datatype Helpers = Helpers(
    bold: string -> string,
    rpad: (string, int) -> string,
    trimTrailingWhitespaces: string -> string)

  /** `beginsWith`: `s` starts with `prefix`. */
  predicate BeginsWith(s: string, prefix: string)
  {
    |prefix| <= |s| && s[..|prefix|] == prefix
  }

  /** Every extension of `prefix` begins with it ... */
  lemma BeginsWithExtension(prefix: string, rest: string)
    ensures BeginsWith(prefix + rest, prefix)
  {
    assert (prefix + rest)[..|prefix|] == prefix;
  }

  /** ... and only those do. */
  lemma BeginsWithSplit(s: string, prefix: string)
    requires BeginsWith(s, prefix)
    ensures s == prefix + s[|prefix|..]
  {
    assert s == s[..|prefix|] + s[|prefix|..];
  }

  // ---------------------------------------------------------------- target

  /** `index .Annotations "target"`: the annotation, or "" when absent. */
  function Target(c: Command): string
  {
    if "target" in c.annotations then c.annotations["target"] else ""
  }

  /** The guard `or (eq $target "kubernetes") (eq $target "k8s")`. */
  predicate IsKubernetes(t: string)
  {
    t == "kubernetes" || t == "k8s"
  }

  /** The guard `and (ne $target "global") (ne $target "")`. */
  predicate HasTargetSegment(t: string)
  {
    t != "global" && t != ""
  }

  /** The four kinds of target the usage text distinguishes. */
  datatype TargetClass = Kubernetes | Global | NoTarget | Named(target: string)

  /** Classification of a target annotation. The template never computes it:
      it tests the two guards above, one after the other. The last two
      ensures say how the classes line up with those guards; in particular a
      Kubernetes target passes both. */
  function Classify(t: string): (k: TargetClass)
    ensures k.Global? <==> t == "global"
    ensures k.NoTarget? <==> t == ""
    ensures k.Named? ==> k.target == t
    ensures k.Kubernetes? <==> IsKubernetes(t)
    ensures HasTargetSegment(t) <==> k.Kubernetes? || k.Named?
  {
    if t == "kubernetes" || t == "k8s" then Kubernetes
    else if t == "global" then Global
    else if t == "" then NoTarget
    else Named(t)
  }

  // ---------------------------------------------------------- usage lines

  /** `{{ if <kubernetes> }}tanzu X{{ end }}`. */
  function KubernetesVariant(t: string, x: string): string
  {
    if IsKubernetes(t) then "tanzu " + x else ""
  }

  /** `{{ if <target segment> }}tanzu {{ $target }} {{ else }} {{ end }}`. */
  function TargetPrefix(t: string): string
  {
    if HasTargetSegment(t) then "tanzu " + t + " " else " "
  }

  /** One invocation of `x` under target `t`: the Kubernetes variant (if any)
      followed directly by the prefixed form. */
  function Invocation(t: string, x: string): string
  {
    KubernetesVariant(t, x) + TargetPrefix(t) + x
  }

  /** The text after "Usage:\n  ": the runnable invocation, then the
      subcommand invocation, with nothing between them. */
  function UsageLines(c: Command): string
  {
    (if c.runnable then Invocation(Target(c), c.useLine) else "")
    + (if c.hasAvailableSubCommands then Invocation(Target(c), c.commandPath + " [command]") else "")
  }

  // ------------------------------------------------------- child listings

  /** `{{range .Commands}}{{if keep}}entry{{end}}{{end}}`. */
  function Listing(cs: seq<Command>, keep: Command -> bool, entry: Command -> string): string
  {
    if cs == [] then ""
    else (if keep(cs[0]) then entry(cs[0]) else "") + Listing(cs[1..], keep, entry)
  }

  function IsAvailableCommand(x: Command): bool { x.isAvailableCommand }

  function IsAdditionalHelpTopic(x: Command): bool { x.isAdditionalHelpTopicCommand }

  /** A line of "Available Commands:". */
  function CommandEntry(h: Helpers): Command -> string
  {
    (x: Command) => "\n  " + h.rpad(x.name, x.namePadding) + " " + x.short
  }

  /** A line of "Additional help topics:". */
  function HelpTopicEntry(h: Helpers): Command -> string
  {
    (x: Command) => "\n  " + h.rpad(x.commandPath, x.commandPathPadding) + " " + x.short
  }

  // ------------------------------------------------------------ closing

  /** `Use "<p> [command] --help" for more information about a command.` */
  function HelpSentence(p: string): string
  {
    "Use \"" + p + " [command] --help\" for more information about a command."
  }

  /** The path in the Kubernetes-only sentence: "tanzu " is prepended unless
      the command path already begins with it. */
  function KubernetesHelpPath(p: string): string
  {
    if BeginsWith(p, "tanzu ") then p else "tanzu " + p
  }

  /** The path in the general sentence: the command path verbatim when it
      begins with "tanzu ", else "tanzu", the target segment or a space, and
      the command path. */
  function HelpPath(t: string, p: string): string
  {
    if BeginsWith(p, "tanzu ") then p
    else "tanzu" + (if HasTargetSegment(t) then " " + t + " " else " ") + p
  }

  /** The closing text: a Kubernetes-only sentence, then the general one. */
  function ClosingHelp(c: Command): string
  {
    (if IsKubernetes(Target(c)) then HelpSentence(KubernetesHelpPath(c.commandPath)) else "")
    + HelpSentence(HelpPath(Target(c), c.commandPath))
  }

  // ------------------------------------------------------------- render

  /** `{{if gt (len .Aliases) 0}}` ... `{{.NameAndAliases}}{{end}}`. */
  function AliasesFragment(h: Helpers, c: Command): string
  {
    if |c.aliases| > 0 then "\n\n" + h.bold("Aliases:") + "\n  " + c.nameAndAliases else ""
  }

  /** `{{if .HasExample}}` ... `{{.Example}}{{end}}`. */
  function ExamplesFragment(h: Helpers, c: Command): string
  {
    if c.hasExample then "\n\n" + h.bold("Examples:") + "\n  " + c.example else ""
  }

  /** `{{if .HasAvailableSubCommands}}` ... "Available Commands:" and its listing. */
  function AvailableCommandsFragment(h: Helpers, c: Command): string
  {
    if c.hasAvailableSubCommands
    then "\n\n" + h.bold("Available Commands:") + Listing(c.commands, IsAvailableCommand, CommandEntry(h))
    else ""
  }

  /** `{{if .HasAvailableLocalFlags}}` ... the trimmed local flag usages. */
  function FlagsFragment(h: Helpers, c: Command): string
  {
    if c.hasAvailableLocalFlags
    then "\n\n" + h.bold("Flags:") + "\n" + h.trimTrailingWhitespaces(c.localFlagUsages)
    else ""
  }

  /** `{{if .HasAvailableInheritedFlags}}` ... the trimmed inherited flag usages. */
  function GlobalFlagsFragment(h: Helpers, c: Command): string
  {
    if c.hasAvailableInheritedFlags
    then "\n\n" + h.bold("Global Flags:") + "\n" + h.trimTrailingWhitespaces(c.inheritedFlagUsages)
    else ""
  }

  /** `{{if .HasHelpSubCommands}}` ... "Additional help topics:" and its listing. */
  function HelpTopicsFragment(h: Helpers, c: Command): string
  {
    if c.hasHelpSubCommands
    then "\n\n" + h.bold("Additional help topics:") + Listing(c.commands, IsAdditionalHelpTopic, HelpTopicEntry(h))
    else ""
  }

  /** The last `{{if .HasAvailableSubCommands}}`: a blank line and the closing text. */
  function ClosingFragment(c: Command): string
  {
    if c.hasAvailableSubCommands then "\n\n" + ClosingHelp(c) else ""
  }

  /** Everything between "Usage:\n  " and the final newline. */
  function Body(h: Helpers, c: Command): string
  {
    UsageLines(c) + AliasesFragment(h, c) + ExamplesFragment(h, c) + AvailableCommandsFragment(h, c)
    + FlagsFragment(h, c) + GlobalFlagsFragment(h, c) + HelpTopicsFragment(h, c) + ClosingFragment(c)
  }

  /** The whole template, `{{ bold "Usage:" }}` through its final newline. */
  function Render(h: Helpers, c: Command): (r: string)
    ensures BeginsWith(r, h.bold("Usage:") + "\n  ")
    ensures |r| > 0 && r[|r| - 1] == '\n'
  {
    var head := h.bold("Usage:") + "\n  ";
    BeginsWithExtension(head, Body(h, c) + "\n");
    assert head + (Body(h, c) + "\n") == head + Body(h, c) + "\n";
    head + Body(h, c) + "\n"
  }
}
