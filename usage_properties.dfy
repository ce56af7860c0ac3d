/** What the usage screen of plugin/usage.go promises: the usage lines per
    target class, the optional sections (which appear, in which order, with
    what content), the child listings and the closing help sentence. */
module UsageProperties {
  import opened Seqs
  import opened Usage

  // ------------------------------------------------------ usage lines

  /** One invocation (of the use line, or of the command path and
      " [command]") under each class of target. */
  lemma InvocationByClass(t: string, x: string)
    ensures Invocation(t, x)
         == match Classify(t)
            case Kubernetes => "tanzu " + x + "tanzu " + t + " " + x
            case Named(n) => "tanzu " + n + " " + x
            case _ => " " + x
  {
    match Classify(t)
    case Kubernetes =>
      assert IsKubernetes(t) && HasTargetSegment(t);
      var k := "tanzu " + x;
      Assoc(k, "tanzu " + t + " ", x);
      Assoc(k, "tanzu " + t, " ");
      Assoc(k, "tanzu ", t);
    case Named(n) =>
      assert !IsKubernetes(t) && HasTargetSegment(t) && n == t;
    case _ =>
      assert !IsKubernetes(t) && !HasTargetSegment(t);
  }

  /** A "kubernetes" or "k8s" target fires both branches: the Kubernetes
      variant and then the target-prefixed form, glued together. */
  lemma KubernetesUsageLines(c: Command)
    requires IsKubernetes(Target(c))
    ensures var t, u, p := Target(c), c.useLine, c.commandPath + " [command]";
      UsageLines(c)
      == (if c.runnable then "tanzu " + u + "tanzu " + t + " " + u else "")
       + (if c.hasAvailableSubCommands then "tanzu " + p + "tanzu " + t + " " + p else "")
  {
    InvocationByClass(Target(c), c.useLine);
    InvocationByClass(Target(c), c.commandPath + " [command]");
  }

  /** Any other target except "global" is inserted, after "tanzu", before
      the use line and before the command path. */
  lemma NamedTargetUsageLines(c: Command)
    requires Classify(Target(c)).Named?
    ensures var n, u, p := Classify(Target(c)).target, c.useLine, c.commandPath + " [command]";
      UsageLines(c)
      == (if c.runnable then "tanzu " + n + " " + u else "")
       + (if c.hasAvailableSubCommands then "tanzu " + n + " " + p else "")
  {
    InvocationByClass(Target(c), c.useLine);
    InvocationByClass(Target(c), c.commandPath + " [command]");
  }

  /** A "global" or absent target puts a single space, and no "tanzu", before
      the use line and before the command path. */
  lemma GlobalOrAbsentUsageLines(c: Command)
    requires Classify(Target(c)) == Global || Classify(Target(c)) == NoTarget
    ensures var u, p := c.useLine, c.commandPath + " [command]";
      UsageLines(c)
      == (if c.runnable then " " + u else "")
       + (if c.hasAvailableSubCommands then " " + p else "")
  {
    InvocationByClass(Target(c), c.useLine);
    InvocationByClass(Target(c), c.commandPath + " [command]");
  }

  /** The usage text after "Usage:" is a single line: nothing the template
      adds to it is a line break. */
  lemma UsageLinesOnOneLine(c: Command)
    requires '\n' !in c.useLine && '\n' !in c.commandPath && '\n' !in Target(c)
    ensures '\n' !in UsageLines(c)
  {
    var t := Target(c);
    assert '\n' !in TargetPrefix(t);
    assert '\n' !in KubernetesVariant(t, c.useLine);
    assert '\n' !in KubernetesVariant(t, c.commandPath + " [command]");
  }

  // ------------------------------------------------------ child listings

  /** A filtered `range` over the children writes the entries of exactly the
      kept children, in child order. */
  lemma {:induction false} ListingIsFiltered(cs: seq<Command>, keep: Command -> bool, entry: Command -> string)
    ensures Listing(cs, keep, entry) == ConcatMap(Filter(keep, cs), entry)
  {
    if cs != [] {
      ListingIsFiltered(cs[1..], keep, entry);
      var head := if keep(cs[0]) then [cs[0]] else [];
      ConcatMapAppend(head, Filter(keep, cs[1..]), entry);
      assert ConcatMap(head, entry) == if keep(cs[0]) then entry(cs[0]) else "" by {
        if keep(cs[0]) { assert head[1..] == []; }
      }
    }
  }

  /** Listing a concatenation of child lists lists the first, then the
      second: the iteration never reorders children. */
  lemma ListingAppend(a: seq<Command>, b: seq<Command>, keep: Command -> bool, entry: Command -> string)
    ensures Listing(a + b, keep, entry) == Listing(a, keep, entry) + Listing(b, keep, entry)
  {
    ListingIsFiltered(a + b, keep, entry);
    ListingIsFiltered(a, keep, entry);
    ListingIsFiltered(b, keep, entry);
    FilterAppend(keep, a, b);
    ConcatMapAppend(Filter(keep, a), Filter(keep, b), entry);
  }

  // ---------------------------------------------------------- sections

  /** The optional sections, in the order the template writes them. */
  datatype Section =
    | AliasesSection
    | ExamplesSection
    | AvailableCommandsSection
    | FlagsSection
    | GlobalFlagsSection
    | AdditionalHelpTopicsSection

  const SectionOrder: seq<Section> := [
    AliasesSection, ExamplesSection, AvailableCommandsSection,
    FlagsSection, GlobalFlagsSection, AdditionalHelpTopicsSection]

  /** Position of a section on the screen. */
  function Rank(s: Section): int
  {
    match s
    case AliasesSection => 0
    case ExamplesSection => 1
    case AvailableCommandsSection => 2
    case FlagsSection => 3
    case GlobalFlagsSection => 4
    case AdditionalHelpTopicsSection => 5
  }

  /** The guard of each section. */
  predicate Shown(c: Command, s: Section)
  {
    match s
    case AliasesSection => |c.aliases| > 0
    case ExamplesSection => c.hasExample
    case AvailableCommandsSection => c.hasAvailableSubCommands
    case FlagsSection => c.hasAvailableLocalFlags
    case GlobalFlagsSection => c.hasAvailableInheritedFlags
    case AdditionalHelpTopicsSection => c.hasHelpSubCommands
  }

  function Title(s: Section): string
  {
    match s
    case AliasesSection => "Aliases:"
    case ExamplesSection => "Examples:"
    case AvailableCommandsSection => "Available Commands:"
    case FlagsSection => "Flags:"
    case GlobalFlagsSection => "Global Flags:"
    case AdditionalHelpTopicsSection => "Additional help topics:"
  }

  /** What follows a section's title. The two child listings are given by
      filtering the children, not by the template's loop. */
  function SectionBody(h: Helpers, c: Command, s: Section): string
  {
    match s
    case AliasesSection => "\n  " + c.nameAndAliases
    case ExamplesSection => "\n  " + c.example
    case AvailableCommandsSection => ConcatMap(Filter(IsAvailableCommand, c.commands), CommandEntry(h))
    case FlagsSection => "\n" + h.trimTrailingWhitespaces(c.localFlagUsages)
    case GlobalFlagsSection => "\n" + h.trimTrailingWhitespaces(c.inheritedFlagUsages)
    case AdditionalHelpTopicsSection => ConcatMap(Filter(IsAdditionalHelpTopic, c.commands), HelpTopicEntry(h))
  }

  /** A section as written: a blank line, the bold title, the body. */
  function Block(h: Helpers, c: Command): Section -> string
  {
    s => "\n\n" + h.bold(Title(s)) + SectionBody(h, c, s)
  }

  function ShownIn(c: Command): Section -> bool
  {
    s => Shown(c, s)
  }

  /** The sections a command's screen holds: exactly those whose guard
      holds, in screen order. */
  function ShownSections(c: Command): (r: seq<Section>)
    ensures forall s :: s in r <==> Shown(c, s)
    ensures Increasing(r, Rank)
  {
    forall s ensures s in SectionOrder {
      assert SectionOrder[Rank(s)] == s;
    }
    FilterIncreasing(ShownIn(c), SectionOrder, Rank);
    Filter(ShownIn(c), SectionOrder)
  }

  /** A section's text on the screen: its block when its guard holds, else
      nothing. */
  function Piece(h: Helpers, c: Command, s: Section): string
  {
    if Shown(c, s) then Block(h, c)(s) else ""
  }

  /** Joining the shown sections of `xs`: those of all but the last, then
      the last one's piece. */
  lemma PieceStep(h: Helpers, c: Command, xs: seq<Section>)
    requires xs != []
    ensures ConcatMap(Filter(ShownIn(c), xs), Block(h, c))
         == ConcatMap(Filter(ShownIn(c), xs[..|xs| - 1]), Block(h, c)) + Piece(h, c, xs[|xs| - 1])
  {
    FilterConcatMapLast(ShownIn(c), xs, Block(h, c));
  }

  /** Joining the shown sections writes every section's piece in order. */
  lemma ShownBlocks(h: Helpers, c: Command)
    ensures ConcatMap(ShownSections(c), Block(h, c))
         == Piece(h, c, AliasesSection) + Piece(h, c, ExamplesSection)
          + Piece(h, c, AvailableCommandsSection) + Piece(h, c, FlagsSection)
          + Piece(h, c, GlobalFlagsSection) + Piece(h, c, AdditionalHelpTopicsSection)
  {
    var p, f := ShownIn(c), Block(h, c);
    var x6 := SectionOrder;
    var x5 := [AliasesSection, ExamplesSection, AvailableCommandsSection, FlagsSection, GlobalFlagsSection];
    var x4 := [AliasesSection, ExamplesSection, AvailableCommandsSection, FlagsSection];
    var x3 := [AliasesSection, ExamplesSection, AvailableCommandsSection];
    var x2 := [AliasesSection, ExamplesSection];
    var x1 := [AliasesSection];
    assert x6[..5] == x5;
    assert x5[..4] == x4;
    assert x4[..3] == x3;
    assert x3[..2] == x2;
    assert x2[..1] == x1;
    assert x1[..0] == [];
    PieceStep(h, c, x1);
    assert ConcatMap(Filter(p, x1), f) == Piece(h, c, AliasesSection);
    PieceStep(h, c, x2);
    PieceStep(h, c, x3);
    PieceStep(h, c, x4);
    PieceStep(h, c, x5);
    PieceStep(h, c, x6);
    assert ShownSections(c) == Filter(p, x6);
  }

  /** A section's block, unfolded. */
  lemma BlockUnfold(h: Helpers, c: Command, s: Section)
    ensures Block(h, c)(s) == "\n\n" + h.bold(Title(s)) + SectionBody(h, c, s)
  {
  }

  /** The fragments that copy a field are the pieces of the layout. */
  lemma TextFragments(h: Helpers, c: Command)
    ensures AliasesFragment(h, c) == Piece(h, c, AliasesSection)
    ensures ExamplesFragment(h, c) == Piece(h, c, ExamplesSection)
    ensures FlagsFragment(h, c) == Piece(h, c, FlagsSection)
    ensures GlobalFlagsFragment(h, c) == Piece(h, c, GlobalFlagsSection)
  {
    BlockUnfold(h, c, AliasesSection);
    BlockUnfold(h, c, ExamplesSection);
    BlockUnfold(h, c, FlagsSection);
    BlockUnfold(h, c, GlobalFlagsSection);
    Assoc("\n\n" + h.bold("Aliases:"), "\n  ", c.nameAndAliases);
    Assoc("\n\n" + h.bold("Examples:"), "\n  ", c.example);
    Assoc("\n\n" + h.bold("Flags:"), "\n", h.trimTrailingWhitespaces(c.localFlagUsages));
    Assoc("\n\n" + h.bold("Global Flags:"), "\n", h.trimTrailingWhitespaces(c.inheritedFlagUsages));
  }

  /** The fragments that list children are the pieces of the layout. */
  lemma ListingFragments(h: Helpers, c: Command)
    ensures AvailableCommandsFragment(h, c) == Piece(h, c, AvailableCommandsSection)
    ensures HelpTopicsFragment(h, c) == Piece(h, c, AdditionalHelpTopicsSection)
  {
    ListingIsFiltered(c.commands, IsAvailableCommand, CommandEntry(h));
    ListingIsFiltered(c.commands, IsAdditionalHelpTopic, HelpTopicEntry(h));
    BlockUnfold(h, c, AvailableCommandsSection);
    BlockUnfold(h, c, AdditionalHelpTopicsSection);
  }

  /** Between the header and the final newline: the usage lines, the shown
      sections, the closing fragment. */
  lemma BodyLayout(h: Helpers, c: Command)
    ensures Body(h, c) == UsageLines(c) + ConcatMap(ShownSections(c), Block(h, c)) + ClosingFragment(c)
  {
    ShownBlocks(h, c);
    TextFragments(h, c);
    ListingFragments(h, c);
    var a, b, d, e := Piece(h, c, AliasesSection), Piece(h, c, ExamplesSection),
                      Piece(h, c, AvailableCommandsSection), Piece(h, c, FlagsSection);
    var g, k := Piece(h, c, GlobalFlagsSection), Piece(h, c, AdditionalHelpTopicsSection);
    var u := UsageLines(c);
    assert Body(h, c) == u + a + b + d + e + g + k + ClosingFragment(c);
    Assoc(u, a + b + d + e + g, k);
    Assoc(u, a + b + d + e, g);
    Assoc(u, a + b + d, e);
    Assoc(u, a + b, d);
    Assoc(u, a, b);
  }

  /** The whole screen: the header, the usage lines, the shown sections in
      order (each after a blank line), the closing sentence after a blank
      line exactly when there are available subcommands, and one final
      newline. */
  lemma RenderLayout(h: Helpers, c: Command)
    ensures Render(h, c)
         == h.bold("Usage:") + "\n  " + UsageLines(c)
          + ConcatMap(ShownSections(c), Block(h, c))
          + (if c.hasAvailableSubCommands then "\n\n" + ClosingHelp(c) else "")
          + "\n"
  {
    BodyLayout(h, c);
    var head, u, x, z := h.bold("Usage:") + "\n  ", UsageLines(c), ConcatMap(ShownSections(c), Block(h, c)), ClosingFragment(c);
    assert Render(h, c) == head + (u + x + z) + "\n";
    Assoc(head, u + x, z);
    Assoc(head, u, x);
  }

  /** A command with nothing to list renders the header and its usage line
      only: no empty section headers. */
  lemma MinimalRender(h: Helpers, c: Command)
    requires |c.aliases| == 0 && !c.hasExample && !c.hasAvailableSubCommands
    requires !c.hasAvailableLocalFlags && !c.hasAvailableInheritedFlags && !c.hasHelpSubCommands
    ensures Render(h, c)
         == h.bold("Usage:") + "\n  " + (if c.runnable then Invocation(Target(c), c.useLine) else "") + "\n"
  {
  }

  // ----------------------------------------------------------- closing

  /** A command path that already begins with "tanzu " is used verbatim, with
      no target; a Kubernetes target repeats the sentence. */
  lemma ClosingHelpVerbatim(c: Command)
    requires BeginsWith(c.commandPath, "tanzu ")
    ensures ClosingHelp(c)
         == if IsKubernetes(Target(c)) then HelpSentence(c.commandPath) + HelpSentence(c.commandPath)
            else HelpSentence(c.commandPath)
  {
  }

  /** The general sentence's path for a command path that does not begin
      with "tanzu ", per class of target. */
  lemma HelpPathByClass(t: string, p: string)
    requires !BeginsWith(p, "tanzu ")
    ensures HelpPath(t, p)
         == match Classify(t)
            case Kubernetes => "tanzu " + t + " " + p
            case Named(n) => "tanzu " + n + " " + p
            case _ => "tanzu " + p
  {
    assert "tanzu" + " " == "tanzu ";
    if HasTargetSegment(t) {
      Assoc("tanzu", " " + t + " ", p);
      Assoc("tanzu", " " + t, " ");
      Assoc("tanzu", " ", t);
    } else {
      Assoc("tanzu", " ", p);
    }
  }

  /** Otherwise "tanzu" is prepended, followed by the target segment for a
      Kubernetes or named target and by a single space for the rest; a
      Kubernetes target first gets a sentence of its own without the target. */
  lemma ClosingHelpPrefixed(c: Command)
    requires !BeginsWith(c.commandPath, "tanzu ")
    ensures var t, p := Target(c), c.commandPath;
      ClosingHelp(c)
      == match Classify(t)
         case Kubernetes => HelpSentence("tanzu " + p) + HelpSentence("tanzu " + t + " " + p)
         case Named(n) => HelpSentence("tanzu " + n + " " + p)
         case _ => HelpSentence("tanzu " + p)
  {
    HelpPathByClass(Target(c), c.commandPath);
  }

  /** The closing text ends in the full stop of its last sentence. */
  lemma ClosingHelpEndsWithStop(c: Command)
    ensures var w := ClosingHelp(c); |w| > 0 && w[|w| - 1] == '.'
  {
    var p := HelpPath(Target(c), c.commandPath);
    var tail := " [command] --help\" for more information about a command.";
    assert tail[|tail| - 1] == '.';
    assert HelpSentence(p) == "Use \"" + p + tail;
  }

  /** With available subcommands the text before the final newline ends
      in the closing sentence's full stop. */
  lemma BodyEndsWithStop(h: Helpers, c: Command)
    requires c.hasAvailableSubCommands
    ensures var b := Body(h, c); |b| > 0 && b[|b| - 1] == '.'
  {
    ClosingHelpEndsWithStop(c);
    var w := ClosingHelp(c);
    assert ClosingFragment(c) == "\n\n" + w;
  }

  /** With available subcommands the screen ends in the closing sentence's
      full stop and a single newline. */
  lemma RenderEndsWithClosing(h: Helpers, c: Command)
    requires c.hasAvailableSubCommands
    ensures var r := Render(h, c); |r| >= 2 && r[|r| - 2] == '.' && r[|r| - 1] == '\n'
  {
    BodyEndsWithStop(h, c);
    var head, b := h.bold("Usage:") + "\n  ", Body(h, c);
    var r := Render(h, c);
    assert r == (head + b) + "\n";
    assert (head + b)[|head + b| - 1] == b[|b| - 1];
  }
}
