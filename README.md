# TrackGit status report

A Dafny model of the text that TrackGit's Status command shows for a Git
working directory (`GitCommand/Status.cpp`). The report is made of three parts:

- a branch line, `Branch: <name>` or `Branch: No Branch info`;
- up to four sections built from libgit2's ordered list of status entries:
  changes to be committed (staged), changes not staged for commit
  (unstaged), untracked files and ignored files;
- the advisory line `No changes added to commit` when something is
  unstaged and nothing is staged.

Two modules:

- `Strings` (`strings.dfy`) models the two Haiku `BString` operations the
  report is built with. `Append` is sequence concatenation. `ReplaceFirst`
  replaces the first occurrence of a pattern anywhere in the string and
  leaves the string unchanged when the pattern does not occur.
- `Status` (`status.dfy`) has two layers.
  - The data model: a status bit set (`set<Flag>`, where CURRENT is the
    empty set), deltas with optional old and new paths, and entries.
  - A specification of the report by plain concatenation: `SectionLine`,
    `Lines`, `Part`, `StatusText`, and `Report` as a list of sections.
    Lemmas about it cover label precedence, which section an entry lands
    in, line order, headers, section order and the advisory rule.
  - The imperative builder, written the way the source works. One method
    per pass (`IndexChanges`, `WorkdirChanges`, `UntrackedFiles`,
    `IgnoredFiles`) appends to one `string` buffer in a loop. It keeps a
    lazy `header` flag and the label cascade, and fills each line's
    template with `ReplaceFirst` over the whole buffer.
  - `GetStatusTextUtil` chains the four passes and appends the advisory.
    It is proved equal to `StatusText` whenever no path contains one of
    the placeholder tokens `%istatus`, `%wstatus`, `%old`, `%new`, `%file`.
    For every input, the advisory ends the text when the rule asks for it.
  - `GetBranchText` and `GetStatusText` model the branch line and the
    final concatenation.

Where a prose description of the command differs from the code, the model
follows the code:

- The label comes from the LAST matching flag of the `if` cascade, since
  each later `if` overwrites the label. So TYPECHANGE beats RENAMED, which
  beats DELETED, then MODIFIED, then NEW.
- A label is followed by the template's own space. Labels that end in
  padding therefore print two spaces before the path (`new file:  a`).
- An empty old path is not null. When the new path differs from it, the
  line is printed as a rename.

## Model

| member | source | states |
|---|---|---|
| Strings.FindFrom | GitCommand/Status.cpp:69 | the index found is the first occurrence of the pattern at or after the start; None means the pattern occurs nowhere from there on |
| Strings.ReplaceFirst | GitCommand/Status.cpp:69-75 | a string without the pattern is returned unchanged; otherwise exactly the first occurrence is replaced, the rest of the buffer kept |
| Status.IndexLabelPrecedence | GitCommand/Status.cpp:44-56 | the staged label's flag is the set index flag that is last in the order NEW, MODIFIED, DELETED, RENAMED, TYPECHANGE (in both directions); there is no staged label exactly when no index flag is set |
| Status.WorkdirLabelPrecedence | GitCommand/Status.cpp:99-110 | the same rule over WT_MODIFIED, WT_DELETED, WT_RENAMED, WT_TYPECHANGE; no unstaged label exactly when none of them is set (WT_NEW gives none) |
| Status.IndexStatus | GitCommand/Status.cpp:44-53 | the as-written cascade of overwriting ifs yields the label of the precedence rule, and the label is one of the five label strings |
| Status.WorkdirStatus | GitCommand/Status.cpp:100-107 | the same for the workdir cascade |
| Status.SectionMembership | GitCommand/Status.cpp:33-174 | an entry is staged iff it has an index flag, unstaged iff it has an index-to-workdir delta and a workdir label flag, untracked iff its status is exactly WT_NEW, ignored iff exactly IGNORED |
| Status.SectionExclusivity | GitCommand/Status.cpp:143-174 | an untracked or ignored entry appears in no other section; an entry with both an index and a workdir change yields one staged and one unstaged line and nothing else |
| Status.StagedLineText | GitCommand/Status.cpp:64-76 | a staged line reads `\t<label> old -> new\n` when both paths are present and differ, else `\t<label> path\n` with the old path preferred |
| Status.UnstagedLineText | GitCommand/Status.cpp:118-130 | the same rendering for the index-to-workdir delta of an unstaged line |
| Status.CurrentLinesInvisible | GitCommand/Status.cpp:96-97 | inserting a CURRENT entry anywhere leaves every section's lines unchanged |
| Status.CurrentEntryInvisible | GitCommand/Status.cpp:38-39 | inserting a CURRENT entry anywhere leaves the status text unchanged |
| Status.LinesAppend | GitCommand/Status.cpp:33-77 | a pass over two concatenated entry lists gives the lines of the first followed by those of the second |
| Status.EntryPosition | GitCommand/Status.cpp:86-131 | each entry contributes at most one line to a section, at its own position in input order |
| Status.HeaderBeforeFirstLine | GitCommand/Status.cpp:58-64 | a non-empty section's text is its header immediately followed by its first line, then the rest |
| Status.ReportShape | GitCommand/Status.cpp:32-175 | the sections come in the order staged, unstaged, untracked, ignored, each at most once; each holds its kind's lines; a kind's section is present iff it has a line |
| Status.HeaderPresence | GitCommand/Status.cpp:145-149 | a section's header is printed iff that section has at least one line |
| Status.ReportText | GitCommand/Status.cpp:177-180 | the status text is the rendered sections followed by the advisory line when it is due |
| Status.AdvisoryRule | GitCommand/Status.cpp:177-178 | the advisory is due iff there is an unstaged section and no staged one, and then it comes last; otherwise the text is the sections alone |
| Status.LabeledFill | GitCommand/Status.cpp:73-75 | filling the label and path template of a placeholder-free buffer appends exactly the labelled line |
| Status.RenamedFill | GitCommand/Status.cpp:68-71 | filling the label, old and new path template of a placeholder-free buffer appends exactly the rename line |
| Status.PlainFill | GitCommand/Status.cpp:151-152 | filling the path template of a placeholder-free buffer appends exactly the plain line |
| Status.AppendLabeledLine | GitCommand/Status.cpp:72-75 | the as-written append and two ReplaceFirst calls give buffer plus the labelled line, and the buffer stays placeholder-free |
| Status.AppendRenamedLine | GitCommand/Status.cpp:67-71 | the as-written append and three ReplaceFirst calls give buffer plus the rename line, placeholder-free |
| Status.AppendPlainLine | GitCommand/Status.cpp:172-173 | the as-written append and ReplaceFirst give buffer plus the plain line, placeholder-free |
| Status.AppendDeltaLine | GitCommand/Status.cpp:121-130 | choosing between the rename and the single-path template appends exactly the rendered delta line |
| Status.PlaceholderInPathCorruptsEarlierLine | GitCommand/Status.cpp:151-152 | for an untracked path ending in `%file` followed by another untracked path, the second fill rewrites the first line and the buffer differs from the intended two lines |
| Status.IndexChanges | GitCommand/Status.cpp:32-82 | the header flag is set iff the staged section has a line; with placeholder-free paths the buffer grows by exactly the staged section's text |
| Status.WorkdirChanges | GitCommand/Status.cpp:84-135 | the same for the unstaged pass, which also skips entries without an index-to-workdir delta |
| Status.UntrackedFiles | GitCommand/Status.cpp:137-155 | with placeholder-free paths the buffer grows by exactly the untracked section's text (status exactly WT_NEW) |
| Status.IgnoredFiles | GitCommand/Status.cpp:157-175 | the same for the ignored section (status exactly IGNORED) |
| Status.GetStatusTextUtil | GitCommand/Status.cpp:22-181 | with placeholder-free paths the result is StatusText; whatever the paths, the advisory line ends the text when nothing is staged and something is unstaged; no entries give the empty text |
| Status.BranchName | GitCommand/Status.cpp:196-203 | there is a branch name exactly when HEAD resolves, and it is the HEAD shorthand; unborn, not found and other errors give none |
| Status.BranchTextDeterminesName | GitCommand/Status.cpp:205-207 | two branch lines are equal iff the names they print are equal |
| Status.GetBranchText | GitCommand/Status.cpp:189-212 | the branch text is `Branch: ` and the name, or `No Branch info`, and a newline |
| Status.GetStatusText | GitCommand/Status.cpp:266-271 | the full text starts with `Branch: `; with placeholder-free paths it is the branch line followed by StatusText; with no entries it is the branch line alone |

## Left out

- Opening the repository, the bare-repository check, building the status list and the error alerts in `GetStatusText` (lines 223-264). These are libgit2 calls and Haiku UI. The model takes the entry list and the HEAD lookup result as inputs.
- `git_repository_head`, `git_reference_shorthand`, the `printf` diagnostic and `git_reference_free` in `GetBranchText`. The lookup is an input (`HeadLookup`) whose four outcomes the model distinguishes.
- `Status::Execute`, the constructor and the `BAlert` display. These are UI plumbing.
- The variable `rmInWorkDir` (lines 28, 41-42). It is set and never read.
- Heap allocation and leaked `BString` objects. They do not affect the text.
- `UI/CredentialsWindow.cpp`. It is a window with text controls and a message loop, with no report logic.
- `tests/inittest/inittest.h`. It is a test fixture declaration with no logic.
- Null pointers the source follows without a check: the head-to-index delta of an entry with an index label, a delta whose paths are both null, and the old path of an untracked or ignored entry. These entries are excluded by the `Renderable` precondition of the methods, because what the program does with them is a crash or depends on `BString`'s handling of a null argument. That code is not part of this model. The specification function `SectionLine` gives such an entry no line.
- Status.GetStatusTextUtil: the equality with `StatusText` is stated only for paths free of placeholder tokens. For other paths the buffer is what the as-written fills produce; the finding below exhibits one such input.
- Status.GetStatusText: the equality with the branch line plus `StatusText` is stated only for placeholder-free paths, as for `GetStatusTextUtil`.
- `BString` is Haiku library code that is not part of this model. `Append` and `ReplaceFirst` are modelled by their documented behaviour on non-null arguments.

## Findings

| source | as written | input that shows it | evidently intended | confidence | as-written member | corrected member |
|---|---|---|---|---|---|---|
| GitCommand/Status.cpp:151-152 | each line's template is filled with `ReplaceFirst` over the whole report buffer, so the search for `%file` starts at the top of the report (the same holds at lines 68-75, 122-129 and 172-173) | two untracked files, `a%file` then `b`: the second fill replaces the `%file` inside the first line, giving `\tab\n\t%file\n` | each path fills the placeholder of its own line: `\ta%file\n\tb\n` | not executed | Status.PlaceholderInPathCorruptsEarlierLine | Status.EntryPosition |
