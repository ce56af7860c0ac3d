# Usage screen of Tanzu plugin commands

This project models the help ("usage") screen that a Tanzu CLI plugin prints
for one of its cobra commands. The screen comes from the Go text template
`CmdTemplate` in `plugin/usage.go`. The model reads that template as a pure
function, `Usage.Render(h, c)`, from one command record `c` to a string. It
is written piece by piece after the template, and lemmas state what the
string is.

- `seqs.dfy` (module `Seqs`): `Filter` and `ConcatMap` on sequences, with
  lemmas that filtering keeps exactly the wanted elements and never reorders
  them. They give the two filtered `range` loops and the run of optional
  sections a meaning that does not depend on the loop.
- `usage.dfy` (module `Usage`): the command record (`Command`), the
  uninterpreted helpers (`Helpers`: `bold`, `rpad`, `trimTrailingWhitespaces`),
  `beginsWith` as a prefix test, the reading of the "target" annotation
  (`Target`, `IsKubernetes`, `HasTargetSegment`, `Classify`), the usage lines,
  the child listings, the closing sentence, one function per guarded fragment,
  and `Render`.
- `usage_properties.dfy` (module `UsageProperties`): the properties. Usage
  lines are given per target class. The optional sections form a reference
  layout, and `RenderLayout` proves that `Render` equals it. The child
  listings are proved equal to filtered lists. The closing sentence is given
  per class and per command-path prefix.

Quirks of the template that the model keeps as written:

- A "kubernetes" or "k8s" target passes both target tests, so both usage
  forms are written, one right after the other.
- The runnable line and the subcommand line are joined with no separator.
- A "global" or absent target puts a bare space before the use line, not
  "tanzu". The closing sentence still gets "tanzu".

The child padding helper `rpad` is left uninterpreted, like `bold` and
`trimTrailingWhitespaces`.

## Model

| member | source | states |
|---|---|---|
| `Usage.Render` | plugin/usage.go:25-47 | The screen always begins with `bold("Usage:")`, a newline and two spaces, and always ends in a newline. |
| `Usage.Classify` | plugin/usage.go:26 | Sorts a target into four classes: kubernetes/k8s, global, empty or absent, and any other named target. The template's two guards line up with these classes: the Kubernetes test holds exactly for class Kubernetes, and the target-segment test holds exactly for Kubernetes and named targets. So a k8s target passes both tests. |
| `Usage.BeginsWithExtension` | plugin/usage.go:46 | `beginsWith` holds for every extension of the prefix. |
| `Usage.BeginsWithSplit` | plugin/usage.go:46 | A string that `beginsWith` a prefix is that prefix followed by the rest. |
| `UsageProperties.InvocationByClass` | plugin/usage.go:26 | One invocation per class. Kubernetes: `"tanzu " + x` directly followed by `"tanzu " + t + " " + x`. Named target n: `"tanzu " + n + " " + x`. Global or absent: `" " + x`. |
| `UsageProperties.KubernetesUsageLines` | plugin/usage.go:26 | Kubernetes target, runnable: `"tanzu " + UseLine` followed with no separator by `"tanzu " + target + " " + UseLine`. Subcommands: the same for `CommandPath + " [command]"`, appended on the same line. |
| `UsageProperties.NamedTargetUsageLines` | plugin/usage.go:26 | Any other non-empty target except "global": `"tanzu " + target + " "` comes before UseLine when runnable, and before `CommandPath [command]` when there are available subcommands. Nothing else is written. |
| `UsageProperties.GlobalOrAbsentUsageLines` | plugin/usage.go:26 | A "global" or absent target: one space before UseLine and one before `CommandPath [command]`. There is no "tanzu" and no target text. |
| `UsageProperties.UsageLinesOnOneLine` | plugin/usage.go:26 | The template adds no line break to the usage lines. The runnable part and the subcommand part stay on one line. |
| `Seqs.Filter` | plugin/usage.go:34-35 | A filtered iteration keeps exactly the elements that pass the test: every kept element is one of the inputs and passes it, and every input that passes it is kept. |
| `Seqs.FilterAppend` | plugin/usage.go:34-35 | Filtering a concatenation gives the filtered first part, then the filtered second part. The iteration keeps child order. |
| `Seqs.FilterIncreasing` | plugin/usage.go:26-44 | What is kept keeps the relative order it had in the input. |
| `UsageProperties.ListingIsFiltered` | plugin/usage.go:34-35 | The template's `range` with an `if` writes the entries of exactly the kept children, in child order. The result is the entries of `Filter(keep, children)`, joined. |
| `UsageProperties.ListingAppend` | plugin/usage.go:34-44 | Listing two child lists one after the other gives the first listing followed by the second. |
| `UsageProperties.ShownSections` | plugin/usage.go:26-44 | A section appears if and only if its guard holds: `len(Aliases) > 0`, HasExample, HasAvailableSubCommands, HasAvailableLocalFlags, HasAvailableInheritedFlags or HasHelpSubCommands. The sections always come in that order. |
| `UsageProperties.ShownBlocks` | plugin/usage.go:26-44 | Joining the shown sections writes each section's piece in order. A piece is the section's block when its guard holds, and nothing otherwise. |
| `UsageProperties.TextFragments` | plugin/usage.go:26-41 | The Aliases, Examples, Flags and Global Flags fragments each give a blank line, the bold title, and then the field's text. Each appears only when its guard holds. The flag texts pass through `trimTrailingWhitespaces`. |
| `UsageProperties.ListingFragments` | plugin/usage.go:32-44 | "Available Commands" lists exactly the children with IsAvailableCommand, as `"\n  " + rpad(Name, NamePadding) + " " + Short`. "Additional help topics" lists exactly the IsAdditionalHelpTopicCommand children, as `"\n  " + rpad(CommandPath, CommandPathPadding) + " " + Short`. Both keep child order. |
| `UsageProperties.BodyLayout` | plugin/usage.go:26-46 | Between the header and the final newline come the usage lines, then the shown sections, then the closing fragment. |
| `UsageProperties.RenderLayout` | plugin/usage.go:25-47 | The whole screen is the header, the usage lines, and the shown sections in order, each after a blank line. Then comes the closing sentence after a blank line, exactly when there are available subcommands. Last comes one newline. |
| `UsageProperties.MinimalRender` | plugin/usage.go:25-47 | A command with no aliases, example, subcommands, flags or help topics renders only the header, its invocation line (when runnable) and the newline. No empty section headers appear. |
| `UsageProperties.ClosingHelpVerbatim` | plugin/usage.go:46 | A CommandPath that begins with "tanzu " is used verbatim, with no target inserted. A Kubernetes target writes the sentence twice; every other target writes it once. |
| `UsageProperties.HelpPathByClass` | plugin/usage.go:46 | When CommandPath does not begin with "tanzu ", the general sentence's path is "tanzu". Then comes the target segment for Kubernetes and named targets, or a single space for global or absent ones. Then comes CommandPath. |
| `UsageProperties.ClosingHelpPrefixed` | plugin/usage.go:46 | When CommandPath does not begin with "tanzu ", a Kubernetes target gives two back-to-back sentences: `tanzu <path>`, then `tanzu <target> <path>`. A named target gives one sentence with `tanzu <target> <path>`. A global or absent target gives one sentence with `tanzu <path>`. |
| `UsageProperties.ClosingHelpEndsWithStop` | plugin/usage.go:46 | The closing text ends in the full stop of its last sentence. |
| `UsageProperties.RenderEndsWithClosing` | plugin/usage.go:44-47 | With available subcommands, the screen ends in that full stop and a single newline. |

## Left out

- `UsageFunc` (plugin/usage.go:16-22) is not modelled. It parses the template with Go's `text/template`, runs it on the command and writes the result to standard output. That is I/O and a foreign template engine, and its error paths (a parse error, an execution or write error) go with it.
- The bodies of `bold`, `rpad`, `trimTrailingWhitespaces` and `underline` (plugin/usage.go:50-56) are not modelled. They live in a component package that is not part of this model. The first three are uninterpreted function values in `Helpers`. `underline` is registered but never used by the template. The terminal styling behind `bold` is not modelled either.
- How cobra derives UseLine, CommandPath, NameAndAliases, NamePadding, CommandPathPadding, the flag usage texts, the `Has*`/`Is*` tests and the order of `.Commands` is not modelled. Cobra is not part of this model, so these are given fields of `Command`. Cobra may sort the children by name; the listings follow whatever order `Command.commands` supplies.
- Usage.Render: "exactly one trailing newline" is proved only when the closing sentence is present (`RenderEndsWithClosing`). Otherwise the text before the final newline ends in caller-supplied text, such as a Short, an Example, a use line or an uninterpreted trimmed flag text. Its last character is unknown to the model.
- Rendering the same command twice gives the same text because `Render` is a function. No separate lemma states this.
