/** The status report of TrackGit's Status command (GitCommand/Status.cpp):
    the branch line, then up to four sections (staged, unstaged, untracked,
    ignored) built from libgit2's ordered list of status entries, then an
    advisory line when only unstaged changes exist.

    The specification functions (Lines, Part, StatusText, Report) render the
    report by plain concatenation. GetStatusTextUtil follows the source: it
    appends a template to one buffer and fills the template's placeholders
    with BString::ReplaceFirst, which searches the WHOLE buffer; it is proved
    equal to StatusText when no path contains a placeholder. */
module Status {
  import opened Strings

  // ---------------------------------------------------------------------
  // Data model
  // ---------------------------------------------------------------------

  /** The bits of libgit2's git_status_t. An entry's status is the set of its
      bits that are on; GIT_STATUS_CURRENT is the empty set. */
  datatype Flag =
    | IndexNew | IndexModified | IndexDeleted | IndexRenamed | IndexTypechange
    | WtNew | WtModified | WtDeleted | WtTypechange | WtRenamed | WtUnreadable
    | Ignored | Conflicted

  /** A diff delta as the report reads it: the old and the new file path,
      either of which may be null (None). */
  datatype Delta = Delta(oldPath: Option<string>, newPath: Option<string>)

  /** One git_status_entry: the status bits and the optional head-to-index
      and index-to-workdir deltas. */
  datatype Entry = Entry(status: set<Flag>, headToIndex: Option<Delta>, indexToWorkdir: Option<Delta>)

  const Current: set<Flag> := {}

  /** One rendered line of a section. */
  datatype Line =
    | Labeled(tag: string, path: string)
    | Renamed(tag: string, oldPath: string, newPath: string)
    | Plain(path: string)

  /** The four sections, in the order the report emits them. */
  datatype Kind = StagedSection | UnstagedSection | UntrackedSection | IgnoredSection

  datatype Section = Section(kind: Kind, lines: seq<Line>)

  /** The result of looking up HEAD (git_repository_head). */
  datatype HeadLookup = Head(shorthand: string) | UnbornBranch | NotFound | OtherError(code: int)

  const AdvisoryText := "\nNo changes added to commit\n"

  // ---------------------------------------------------------------------
  // Labels
  // ---------------------------------------------------------------------

  /** The label printed for a flag. */
  function FlagLabel(f: Flag): string {
    match f
    case IndexNew => "new file: "
    case IndexModified | WtModified => "modified: "
    case IndexDeleted | WtDeleted => "deleted:  "
    case IndexRenamed | WtRenamed => "renamed:  "
    case IndexTypechange | WtTypechange => "typechange:"
    case _ => ""
  }

  /** Position of a flag in the index-side cascade; -1 when it takes no part. */
  function IndexRank(f: Flag): int {
    match f
    case IndexNew => 0
    case IndexModified => 1
    case IndexDeleted => 2
    case IndexRenamed => 3
    case IndexTypechange => 4
    case _ => -1
  }

  /** Position of a flag in the workdir-side cascade; -1 when it takes no part. */
  function WorkdirRank(f: Flag): int {
    match f
    case WtModified => 0
    case WtDeleted => 1
    case WtRenamed => 2
    case WtTypechange => 3
    case _ => -1
  }

  /** The index flag that decides the staged label. */
  function IndexFlag(status: set<Flag>): Option<Flag> {
    if IndexTypechange in status then Some(IndexTypechange)
    else if IndexRenamed in status then Some(IndexRenamed)
    else if IndexDeleted in status then Some(IndexDeleted)
    else if IndexModified in status then Some(IndexModified)
    else if IndexNew in status then Some(IndexNew)
    else None
  }

  /** The workdir flag that decides the unstaged label. */
  function WorkdirFlag(status: set<Flag>): Option<Flag> {
    if WtTypechange in status then Some(WtTypechange)
    else if WtRenamed in status then Some(WtRenamed)
    else if WtDeleted in status then Some(WtDeleted)
    else if WtModified in status then Some(WtModified)
    else None
  }

  function IndexLabel(status: set<Flag>): Option<string> {
    if IndexFlag(status).Some? then Some(FlagLabel(IndexFlag(status).value)) else None
  }

  function WorkdirLabel(status: set<Flag>): Option<string> {
    if WorkdirFlag(status).Some? then Some(FlagLabel(WorkdirFlag(status).value)) else None
  }

  /** The staged label comes from the index flag that is LAST in the
      source's cascade of ifs (each later match overwrites the label);
      with no index flag there is no staged label. */
  lemma IndexLabelPrecedence(status: set<Flag>, f: Flag)
    ensures IndexFlag(status) == Some(f) <==>
      f in status && IndexRank(f) >= 0 && forall g :: g in status ==> IndexRank(g) <= IndexRank(f)
    ensures IndexLabel(status).None? <==> forall g :: g in status ==> IndexRank(g) < 0
  {
    var o := IndexFlag(status);
    if o.Some? {
      assert o.value in status;
    } else {
      forall g | g in status ensures IndexRank(g) < 0 {
        assert g != IndexNew;
      }
    }
  }

  /** The same rule on the workdir side, over MODIFIED, DELETED, RENAMED and
      TYPECHANGE; WT_NEW yields no unstaged label. */
  lemma WorkdirLabelPrecedence(status: set<Flag>, f: Flag)
    ensures WorkdirFlag(status) == Some(f) <==>
      f in status && WorkdirRank(f) >= 0 && forall g :: g in status ==> WorkdirRank(g) <= WorkdirRank(f)
    ensures WorkdirLabel(status).None? <==> forall g :: g in status ==> WorkdirRank(g) < 0
  {
    var o := WorkdirFlag(status);
    if o.Some? {
      assert o.value in status;
    } else {
      forall g | g in status ensures WorkdirRank(g) < 0 {
        assert g != WtModified;
      }
    }
  }

  // ---------------------------------------------------------------------
  // Lines and sections, by concatenation
  // ---------------------------------------------------------------------

  function LineText(l: Line): string {
    match l
    case Labeled(tag, path) => "\t" + tag + " " + path + "\n"
    case Renamed(tag, o, n) => "\t" + tag + " " + o + " -> " + n + "\n"
    case Plain(path) => "\t" + path + "\n"
  }

  /** A delta has a path to print: the source passes a null path to
      ReplaceFirst otherwise. */
  predicate Displayable(d: Delta) {
    d.oldPath.Some? || d.newPath.Some?
  }

  /** A labelled line: a rename when both paths are present and differ,
      otherwise the old path, or the new one when the old is null. */
  function DeltaLine(tag: string, d: Delta): Line
    requires Displayable(d)
  {
    if d.oldPath.Some? && d.newPath.Some? && d.oldPath.value != d.newPath.value
    then Renamed(tag, d.oldPath.value, d.newPath.value)
    else Labeled(tag, if d.oldPath.Some? then d.oldPath.value else d.newPath.value)
  }

  /** What the source dereferences without checking: the head-to-index
      delta of an entry with a staged label, a path of every delta it prints,
      and the old path of an untracked or ignored entry. */
  predicate Renderable(e: Entry) {
    && (IndexLabel(e.status).Some? ==> e.headToIndex.Some? && Displayable(e.headToIndex.value))
    && (e.indexToWorkdir.Some? && WorkdirLabel(e.status).Some? ==> Displayable(e.indexToWorkdir.value))
    && (e.status == {WtNew} || e.status == {Ignored} ==>
          e.indexToWorkdir.Some? && e.indexToWorkdir.value.oldPath.Some?)
  }

  predicate AllRenderable(es: seq<Entry>) {
    forall i | 0 <= i < |es| :: Renderable(es[i])
  }

  /** The line an entry contributes to a section, if any. An entry the
      source would crash on (see Renderable) contributes no line here; the
      methods exclude such entries by their preconditions. */
  function SectionLine(k: Kind, e: Entry): Option<Line> {
    match k
    case StagedSection =>
      if e.status == Current || IndexLabel(e.status).None? then None
      else if e.headToIndex.Some? && Displayable(e.headToIndex.value)
      then Some(DeltaLine(IndexLabel(e.status).value, e.headToIndex.value))
      else None
    case UnstagedSection =>
      if e.status == Current || e.indexToWorkdir.None? || WorkdirLabel(e.status).None? then None
      else if Displayable(e.indexToWorkdir.value)
      then Some(DeltaLine(WorkdirLabel(e.status).value, e.indexToWorkdir.value))
      else None
    case UntrackedSection =>
      if e.status == {WtNew} && e.indexToWorkdir.Some? && e.indexToWorkdir.value.oldPath.Some?
      then Some(Plain(e.indexToWorkdir.value.oldPath.value))
      else None
    case IgnoredSection =>
      if e.status == {Ignored} && e.indexToWorkdir.Some? && e.indexToWorkdir.value.oldPath.Some?
      then Some(Plain(e.indexToWorkdir.value.oldPath.value))
      else None
  }

  function Optional(o: Option<Line>): seq<Line> {
    if o.Some? then [o.value] else []
  }

  /** The lines of section `k`, one pass over the entries in input order. */
  function Lines(k: Kind, es: seq<Entry>): seq<Line>
  {
    if es == [] then []
    else Lines(k, es[..|es| - 1]) + Optional(SectionLine(k, es[|es| - 1]))
  }

  function LinesText(ls: seq<Line>): string {
    if ls == [] then "" else LinesText(ls[..|ls| - 1]) + LineText(ls[|ls| - 1])
  }

  /** A section's title line, printed after an empty line. */
  function Title(k: Kind): string {
    match k
    case StagedSection => "Changes to be committed:\n"
    case UnstagedSection => "Changes not staged for commit:\n"
    case UntrackedSection => "Untracked files:\n"
    case IgnoredSection => "Ignored files:\n"
  }

  function Header(k: Kind): string {
    "\n" + Title(k)
  }

  /** A section's text: nothing when it has no line, else its header and lines. */
  function Part(k: Kind, ls: seq<Line>): string {
    if ls == [] then "" else Header(k) + LinesText(ls)
  }

  /** The advisory is due when nothing is staged and something is not. */
  predicate NeedsAdvisory(es: seq<Entry>)
  {
    Lines(StagedSection, es) == [] && Lines(UnstagedSection, es) != []
  }

  /** The status part of the report. */
  function StatusText(es: seq<Entry>): string
  {
    Part(StagedSection, Lines(StagedSection, es))
    + Part(UnstagedSection, Lines(UnstagedSection, es))
    + Part(UntrackedSection, Lines(UntrackedSection, es))
    + Part(IgnoredSection, Lines(IgnoredSection, es))
    + (if NeedsAdvisory(es) then AdvisoryText else "")
  }

  // ---------------------------------------------------------------------
  // The report as structured sections
  // ---------------------------------------------------------------------

  function Order(k: Kind): nat {
    match k
    case StagedSection => 0
    case UnstagedSection => 1
    case UntrackedSection => 2
    case IgnoredSection => 3
  }

  function Keep(s: Section): seq<Section> {
    if s.lines == [] then [] else [s]
  }

  /** The sections that have at least one line, in the fixed order. */
  function Report(es: seq<Entry>): seq<Section> {
    Keep(Section(StagedSection, Lines(StagedSection, es)))
    + Keep(Section(UnstagedSection, Lines(UnstagedSection, es)))
    + Keep(Section(UntrackedSection, Lines(UntrackedSection, es)))
    + Keep(Section(IgnoredSection, Lines(IgnoredSection, es)))
  }

  function RenderSections(r: seq<Section>): string {
    if r == [] then "" else Header(r[0].kind) + LinesText(r[0].lines) + RenderSections(r[1..])
  }

  lemma {:induction false} RenderKeep(s: Section, rest: seq<Section>)
    ensures RenderSections(Keep(s) + rest) == Part(s.kind, s.lines) + RenderSections(rest)
  {
    if s.lines != [] {
      assert (Keep(s) + rest)[1..] == rest;
    } else {
      assert Keep(s) + rest == rest;
    }
  }

  /** Rendering the kept sections is rendering each section's part in turn. */
  lemma RenderFour(s0: Section, s1: Section, s2: Section, s3: Section)
    ensures RenderSections(Keep(s0) + Keep(s1) + Keep(s2) + Keep(s3))
      == Part(s0.kind, s0.lines) + Part(s1.kind, s1.lines) + Part(s2.kind, s2.lines) + Part(s3.kind, s3.lines)
  {
    Nest4(Keep(s0), Keep(s1), Keep(s2), Keep(s3));
    Nest4(Part(s0.kind, s0.lines), Part(s1.kind, s1.lines), Part(s2.kind, s2.lines), Part(s3.kind, s3.lines));
    RenderKeep(s3, []);
    RenderKeep(s2, Keep(s3) + []);
    RenderKeep(s1, Keep(s2) + (Keep(s3) + []));
    RenderKeep(s0, Keep(s1) + (Keep(s2) + (Keep(s3) + [])));
  }

  /** Keeping a section in front of sections of later kinds. */
  lemma KeepFront(s: Section, r: seq<Section>)
    requires forall i, j | 0 <= i < j < |r| :: Order(r[i].kind) < Order(r[j].kind)
    requires forall i | 0 <= i < |r| :: Order(s.kind) < Order(r[i].kind)
    ensures var q := Keep(s) + r;
      && (forall i, j | 0 <= i < j < |q| :: Order(q[i].kind) < Order(q[j].kind))
      && (forall x :: x in q <==> x in r || (x == s && s.lines != []))
  {
    var q := Keep(s) + r;
    if s.lines != [] {
      assert q == [s] + r;
      forall i, j | 0 <= i < j < |q| ensures Order(q[i].kind) < Order(q[j].kind) {
        assert q[j] == r[j - 1];
        if i > 0 {
          assert q[i] == r[i - 1];
        }
      }
    } else {
      assert q == r;
    }
  }

  /** The sections of a report are those with lines, in the fixed order. */
  lemma KeepFour(s0: Section, s1: Section, s2: Section, s3: Section)
    requires s0.kind == StagedSection && s1.kind == UnstagedSection
    requires s2.kind == UntrackedSection && s3.kind == IgnoredSection
    ensures var r := Keep(s0) + Keep(s1) + Keep(s2) + Keep(s3);
      && (forall i, j | 0 <= i < j < |r| :: Order(r[i].kind) < Order(r[j].kind))
      && (forall x :: x in r <==> (x == s0 || x == s1 || x == s2 || x == s3) && x.lines != [])
  {
    KeepFront(s3, []);
    KeepFront(s2, Keep(s3) + []);
    KeepFront(s1, Keep(s2) + (Keep(s3) + []));
    KeepFront(s0, Keep(s1) + (Keep(s2) + (Keep(s3) + [])));
    Nest4(Keep(s0), Keep(s1), Keep(s2), Keep(s3));
  }

  /** The report has a section of kind `k`, that is, prints its header. */
  predicate HasSection(r: seq<Section>, k: Kind) {
    exists i | 0 <= i < |r| :: r[i].kind == k
  }

  /** Sections come in the order staged, unstaged, untracked, ignored, each at
      most once (so each header is printed at most once); every section holds
      its kind's lines, and a kind's section is present exactly when it has a
      line. */
  lemma ReportShape(es: seq<Entry>)
    ensures var r := Report(es);
      && (forall x | x in r :: x.lines != [] && x.lines == Lines(x.kind, es))
      && (forall i, j | 0 <= i < j < |r| :: Order(r[i].kind) < Order(r[j].kind))
      && (forall k: Kind :: Section(k, Lines(k, es)) in r <==> Lines(k, es) != [])
  {
    var s0 := Section(StagedSection, Lines(StagedSection, es));
    var s1 := Section(UnstagedSection, Lines(UnstagedSection, es));
    var s2 := Section(UntrackedSection, Lines(UntrackedSection, es));
    var s3 := Section(IgnoredSection, Lines(IgnoredSection, es));
    assert Report(es) == Keep(s0) + Keep(s1) + Keep(s2) + Keep(s3);
    KeepFour(s0, s1, s2, s3);
    forall k: Kind
      ensures Section(k, Lines(k, es)) in Report(es) <==> Lines(k, es) != []
    {
      match k
      case StagedSection =>
      case UnstagedSection =>
      case UntrackedSection =>
      case IgnoredSection =>
    }
  }

  /** The report prints the header of section `k` exactly when that section
      has a line. */
  lemma HeaderPresence(es: seq<Entry>, k: Kind)
    ensures HasSection(Report(es), k) <==> Lines(k, es) != []
  {
    var r := Report(es);
    ReportShape(es);
    if HasSection(r, k) {
      var i :| 0 <= i < |r| && r[i].kind == k;
      assert r[i] in r;
    }
    if Lines(k, es) != [] {
      var i :| 0 <= i < |r| && r[i] == Section(k, Lines(k, es));
      assert r[i].kind == k;
    }
  }

  /** The status text is the rendered sections followed by the advisory line. */
  lemma ReportText(es: seq<Entry>)
    ensures StatusText(es) == RenderSections(Report(es)) + (if NeedsAdvisory(es) then AdvisoryText else "")
  {
    assert Report(es) == Keep(Section(StagedSection, Lines(StagedSection, es)))
      + Keep(Section(UnstagedSection, Lines(UnstagedSection, es)))
      + Keep(Section(UntrackedSection, Lines(UntrackedSection, es)))
      + Keep(Section(IgnoredSection, Lines(IgnoredSection, es)));
    RenderFour(Section(StagedSection, Lines(StagedSection, es)),
      Section(UnstagedSection, Lines(UnstagedSection, es)),
      Section(UntrackedSection, Lines(UntrackedSection, es)),
      Section(IgnoredSection, Lines(IgnoredSection, es)));
  }

  /** The advisory line is appended, last, exactly when the report has an
      unstaged section and no staged one. */
  lemma AdvisoryRule(es: seq<Entry>)
    ensures NeedsAdvisory(es) <==>
      HasSection(Report(es), UnstagedSection) && !HasSection(Report(es), StagedSection)
    ensures NeedsAdvisory(es) ==> StatusText(es) == RenderSections(Report(es)) + AdvisoryText
    ensures !NeedsAdvisory(es) ==> StatusText(es) == RenderSections(Report(es))
  {
    HeaderPresence(es, UnstagedSection);
    HeaderPresence(es, StagedSection);
    ReportText(es);
    AppendEmpty(RenderSections(Report(es)));
  }

  /** A non-empty section's header is immediately followed by its first line. */
  lemma {:induction false} HeaderBeforeFirstLine(k: Kind, ls: seq<Line>)
    requires ls != []
    ensures Part(k, ls) == Header(k) + LineText(ls[0]) + LinesText(ls[1..])
  {
    LinesTextFirst(ls);
  }

  lemma {:induction false} LinesTextFirst(ls: seq<Line>)
    requires ls != []
    ensures LinesText(ls) == LineText(ls[0]) + LinesText(ls[1..])
    decreases |ls|
  {
    if |ls| > 1 {
      var init := ls[..|ls| - 1];
      LinesTextFirst(init);
      assert init[1..] == ls[1..][..|ls| - 2];
      assert init[0] == ls[0];
    } else {
      assert ls[1..] == [];
      assert ls[..0] == [];
    }
  }

  // ---------------------------------------------------------------------
  // Order and membership
  // ---------------------------------------------------------------------

  /** Splitting the entries splits each section's lines at the same place. */
  lemma {:induction false} LinesAppend(k: Kind, xs: seq<Entry>, ys: seq<Entry>)
    ensures Lines(k, xs + ys) == Lines(k, xs) + Lines(k, ys)
    decreases |ys|
  {
    if ys == [] {
      assert xs + ys == xs;
    } else {
      var init, last := ys[..|ys| - 1], ys[|ys| - 1];
      var s := xs + ys;
      assert s[..|s| - 1] == xs + init && s[|s| - 1] == last by {
        assert s == (xs + init) + [last];
      }
      assert Lines(k, s) == Lines(k, xs + init) + Optional(SectionLine(k, last));
      LinesAppend(k, xs, init);
      AppendAssoc(Lines(k, xs), Lines(k, init), Optional(SectionLine(k, last)));
    }
  }

  /** Each entry contributes at most one line to a section, at its own
      position in input order. */
  lemma EntryPosition(k: Kind, xs: seq<Entry>, e: Entry, ys: seq<Entry>)
    ensures Lines(k, xs + [e] + ys) == Lines(k, xs) + Optional(SectionLine(k, e)) + Lines(k, ys)
  {
    assert Lines(k, [e]) == Optional(SectionLine(k, e)) by {
      assert [e][..0] == [];
    }
    LinesAppend(k, xs, [e]);
    LinesAppend(k, xs + [e], ys);
  }

  /** A CURRENT entry adds no line to any section. */
  lemma CurrentLinesInvisible(k: Kind, xs: seq<Entry>, e: Entry, ys: seq<Entry>)
    requires e.status == Current
    ensures Lines(k, xs + [e] + ys) == Lines(k, xs + ys)
  {
    assert e.status != {WtNew} && e.status != {Ignored} by {
      assert WtNew in {WtNew} && Ignored in {Ignored};
    }
    assert SectionLine(k, e) == None;
    EntryPosition(k, xs, e, ys);
    LinesAppend(k, xs, ys);
    AppendEmpty(Lines(k, xs));
  }

  /** An entry whose status is CURRENT adds nothing anywhere: the status text
      is the same with or without it. */
  lemma CurrentEntryInvisible(xs: seq<Entry>, e: Entry, ys: seq<Entry>)
    requires e.status == Current
    ensures StatusText(xs + [e] + ys) == StatusText(xs + ys)
  {
    CurrentLinesInvisible(StagedSection, xs, e, ys);
    CurrentLinesInvisible(UnstagedSection, xs, e, ys);
    CurrentLinesInvisible(UntrackedSection, xs, e, ys);
    CurrentLinesInvisible(IgnoredSection, xs, e, ys);
  }

  /** Which sections an entry appears in: staged iff it has an index flag,
      unstaged iff it has an index-to-workdir delta and a workdir label flag,
      untracked iff its status is exactly WT_NEW, ignored iff it is exactly
      IGNORED. */
  lemma SectionMembership(e: Entry)
    requires Renderable(e)
    ensures SectionLine(StagedSection, e).Some? <==> exists f :: f in e.status && IndexRank(f) >= 0
    ensures SectionLine(UnstagedSection, e).Some? <==>
      e.indexToWorkdir.Some? && exists f :: f in e.status && WorkdirRank(f) >= 0
    ensures SectionLine(UntrackedSection, e).Some? <==> e.status == {WtNew}
    ensures SectionLine(IgnoredSection, e).Some? <==> e.status == {Ignored}
  {
    IndexLabelPrecedence(e.status, IndexNew);
    WorkdirLabelPrecedence(e.status, WtModified);
  }

  /** An untracked or ignored entry appears in that section only; an entry
      with both index and workdir changes appears once staged and once
      unstaged. */
  lemma SectionExclusivity(e: Entry)
    requires Renderable(e)
    ensures SectionLine(UntrackedSection, e).Some? ==>
      SectionLine(StagedSection, e).None? && SectionLine(UnstagedSection, e).None?
      && SectionLine(IgnoredSection, e).None?
    ensures SectionLine(IgnoredSection, e).Some? ==>
      SectionLine(StagedSection, e).None? && SectionLine(UnstagedSection, e).None?
      && SectionLine(UntrackedSection, e).None?
    ensures IndexLabel(e.status).Some? && WorkdirLabel(e.status).Some? && e.indexToWorkdir.Some? ==>
      SectionLine(StagedSection, e).Some? && SectionLine(UnstagedSection, e).Some?
      && SectionLine(UntrackedSection, e).None? && SectionLine(IgnoredSection, e).None?
  {
    if e.status == {WtNew} {
      assert IndexNew !in e.status && WtModified !in e.status;
    }
    if e.status == {Ignored} {
      assert WtNew !in e.status && IndexNew !in e.status;
    }
  }

  /** The rendered staged line: `old -> new` when both head-to-index paths
      are present and differ, otherwise the old path, or the new path when
      the old one is null. */
  lemma StagedLineText(e: Entry)
    requires Renderable(e) && IndexLabel(e.status).Some?
    ensures var d := e.headToIndex.value;
      var tag := IndexLabel(e.status).value;
      LineText(SectionLine(StagedSection, e).value) ==
        if d.oldPath.Some? && d.newPath.Some? && d.oldPath.value != d.newPath.value
        then "\t" + tag + " " + d.oldPath.value + " -> " + d.newPath.value + "\n"
        else "\t" + tag + " " + (if d.oldPath.Some? then d.oldPath.value else d.newPath.value) + "\n"
  {
    assert e.status != Current by {
      IndexLabelPrecedence(e.status, IndexNew);
    }
  }

  /** The rendered unstaged line, by the same rule over the index-to-workdir
      delta. */
  lemma UnstagedLineText(e: Entry)
    requires Renderable(e) && e.indexToWorkdir.Some? && WorkdirLabel(e.status).Some?
    ensures var d := e.indexToWorkdir.value;
      var tag := WorkdirLabel(e.status).value;
      LineText(SectionLine(UnstagedSection, e).value) ==
        if d.oldPath.Some? && d.newPath.Some? && d.oldPath.value != d.newPath.value
        then "\t" + tag + " " + d.oldPath.value + " -> " + d.newPath.value + "\n"
        else "\t" + tag + " " + (if d.oldPath.Some? then d.oldPath.value else d.newPath.value) + "\n"
  {
    assert e.status != Current by {
      WorkdirLabelPrecedence(e.status, WtModified);
    }
  }

  // ---------------------------------------------------------------------
  // Placeholders and the as-written line appends
  // ---------------------------------------------------------------------

  /** The buffer holds none of the placeholder tokens of the templates. */
  ghost predicate Clean(s: string) {
    && Absent(s, "%istatus") && Absent(s, "%wstatus")
    && Absent(s, "%old") && Absent(s, "%new") && Absent(s, "%file")
  }

  predicate IsSeparator(c: char) {
    c == ' ' || c == '\t' || c == '\n'
  }

  predicate IsLabel(s: string) {
    s == "new file: " || s == "modified: " || s == "deleted:  " || s == "renamed:  " || s == "typechange:"
  }

  predicate StatusToken(t: string) {
    t == "%istatus" || t == "%wstatus"
  }

  lemma CleanConcat(x: string, y: string)
    requires Clean(x) && Clean(y)
    requires x == [] || y == [] || IsSeparator(x[|x| - 1]) || IsSeparator(y[0])
    ensures Clean(x + y)
  {
    AbsentConcat(x, y, "%istatus");
    AbsentConcat(x, y, "%wstatus");
    AbsentConcat(x, y, "%old");
    AbsentConcat(x, y, "%new");
    AbsentConcat(x, y, "%file");
  }

  lemma CleanWithoutPercent(s: string)
    requires '%' !in s
    ensures Clean(s)
  {
    AbsentWithoutLead(s, "%istatus");
    AbsentWithoutLead(s, "%wstatus");
    AbsentWithoutLead(s, "%old");
    AbsentWithoutLead(s, "%new");
    AbsentWithoutLead(s, "%file");
  }

  /** Appending a header keeps the buffer clean. */
  lemma CleanAppendHeader(buf: string, k: Kind)
    requires Clean(buf)
    ensures Clean(buf + Header(k))
  {
    CleanSuffix(buf, Header(k));
  }

  predicate IsToken(t: string) {
    t == "%istatus" || t == "%wstatus" || t == "%old" || t == "%new" || t == "%file"
  }

  /** Appending text without '%' that starts with a separator keeps a clean
      buffer clean. */
  lemma CleanSuffix(buf: string, y: string)
    requires Clean(buf) && '%' !in y && y != [] && IsSeparator(y[0])
    ensures Clean(buf + y)
  {
    CleanWithoutPercent(y);
    CleanConcat(buf, y);
  }

  /** Filling the placeholder that `y` starts with, after a clean buffer that
      ends in a separator, replaces exactly that placeholder. */
  lemma Fill(x: string, y: string, t: string, w: string)
    requires Clean(x) && x != [] && IsSeparator(x[|x| - 1])
    requires IsToken(t) && |t| <= |y| && y[..|t|] == t
    ensures ReplaceFirst(x + y, t, w) == x + w + y[|t|..]
  {
    assert Absent(x, t);
    assert x[|x| - 1] !in t;
    ReplaceAfter(x, y, t, w);
  }

  /** The prefix of a labelled line up to its first path keeps a clean
      buffer clean. */
  lemma CleanLead(buf: string, tag: string)
    requires Clean(buf) && IsLabel(tag)
    ensures Clean(buf + "\t" + tag + " ")
  {
    CleanSuffix(buf, "\t" + tag + " ");
    assert buf + "\t" + tag + " " == buf + ("\t" + tag + " ");
  }

  lemma PlainShape(buf: string, path: string)
    ensures buf + LineText(Plain(path)) == buf + "\t" + path + "\n"
  {
  }

  lemma LabeledShape(buf: string, tag: string, path: string)
    ensures buf + LineText(Labeled(tag, path)) == buf + "\t" + tag + " " + path + "\n"
  {
  }

  lemma RenamedShape(buf: string, tag: string, oldPath: string, newPath: string)
    ensures buf + LineText(Renamed(tag, oldPath, newPath))
      == buf + "\t" + tag + " " + oldPath + " -> " + newPath + "\n"
  {
  }

  /** Appending a line whose paths are clean keeps the buffer clean. */
  lemma CleanPlainLine(buf: string, path: string)
    requires Clean(buf) && Clean(path)
    ensures Clean(buf + LineText(Plain(path)))
  {
    CleanSuffix(buf, "\t");
    CleanConcat(buf + "\t", path);
    CleanSuffix(buf + "\t" + path, "\n");
    PlainShape(buf, path);
  }

  lemma CleanLabeledLine(buf: string, tag: string, path: string)
    requires Clean(buf) && IsLabel(tag) && Clean(path)
    ensures Clean(buf + LineText(Labeled(tag, path)))
  {
    CleanLead(buf, tag);
    CleanConcat(buf + "\t" + tag + " ", path);
    CleanSuffix(buf + "\t" + tag + " " + path, "\n");
    LabeledShape(buf, tag, path);
  }

  lemma CleanRenamedLine(buf: string, tag: string, oldPath: string, newPath: string)
    requires Clean(buf) && IsLabel(tag) && Clean(oldPath) && Clean(newPath)
    ensures Clean(buf + LineText(Renamed(tag, oldPath, newPath)))
  {
    var x := buf + "\t" + tag + " ";
    CleanLead(buf, tag);
    CleanConcat(x, oldPath);
    CleanSuffix(x + oldPath, " -> ");
    CleanConcat(x + oldPath + " -> ", newPath);
    CleanSuffix(x + oldPath + " -> " + newPath, "\n");
    RenamedShape(buf, tag, oldPath, newPath);
  }

  /** The first fill of a line: the status placeholder right after the tab. */
  lemma FillStatus(buf: string, token: string, tag: string, rest: string)
    requires Clean(buf) && StatusToken(token)
    ensures ReplaceFirst(buf + "\t" + token + rest, token, tag) == buf + "\t" + tag + rest
  {
    CleanSuffix(buf, "\t");
    assert buf + "\t" + token + rest == (buf + "\t") + (token + rest);
    assert (token + rest)[..|token|] == token;
    assert (token + rest)[|token|..] == rest;
    Fill(buf + "\t", token + rest, token, tag);
  }

  /** Lines 73-75 and 127-129 as written, on a clean buffer, equal the
      concatenated line. */
  lemma LabeledFill(buf: string, token: string, tag: string, path: string)
    requires StatusToken(token) && IsLabel(tag) && Clean(buf) && Clean(path)
    ensures ReplaceFirst(ReplaceFirst(buf + "\t" + token + " %file\n", token, tag), "%file", path)
      == buf + LineText(Labeled(tag, path))
  {
    FillStatus(buf, token, tag, " %file\n");
    var x := buf + "\t" + tag + " ";
    assert buf + "\t" + tag + " %file\n" == x + "%file\n";
    CleanLead(buf, tag);
    Fill(x, "%file\n", "%file", path);
    LabeledShape(buf, tag, path);
  }

  /** Lines 68-71 and 122-125 as written, on a clean buffer, equal the
      concatenated rename line. */
  lemma RenamedFill(buf: string, token: string, tag: string, oldPath: string, newPath: string)
    requires StatusToken(token) && IsLabel(tag) && Clean(buf) && Clean(oldPath) && Clean(newPath)
    ensures ReplaceFirst(ReplaceFirst(ReplaceFirst(buf + "\t" + token + " %old -> %new\n", token, tag),
        "%old", oldPath), "%new", newPath)
      == buf + LineText(Renamed(tag, oldPath, newPath))
  {
    FillStatus(buf, token, tag, " %old -> %new\n");
    FillOld(buf, tag, oldPath);
    FillNew(buf, tag, oldPath, newPath);
  }

  /** The second fill of a rename line. */
  lemma FillOld(buf: string, tag: string, oldPath: string)
    requires Clean(buf) && IsLabel(tag)
    ensures ReplaceFirst(buf + "\t" + tag + " %old -> %new\n", "%old", oldPath)
      == buf + "\t" + tag + " " + oldPath + " -> %new\n"
  {
    var x := buf + "\t" + tag + " ";
    assert buf + "\t" + tag + " %old -> %new\n" == x + "%old -> %new\n";
    CleanLead(buf, tag);
    Fill(x, "%old -> %new\n", "%old", oldPath);
    assert x + oldPath + " -> %new\n" == buf + "\t" + tag + " " + oldPath + " -> %new\n";
  }

  /** The last fill of a rename line. */
  lemma FillNew(buf: string, tag: string, oldPath: string, newPath: string)
    requires Clean(buf) && IsLabel(tag) && Clean(oldPath)
    ensures ReplaceFirst(buf + "\t" + tag + " " + oldPath + " -> %new\n", "%new", newPath)
      == buf + LineText(Renamed(tag, oldPath, newPath))
  {
    var x := buf + "\t" + tag + " ";
    CleanLead(buf, tag);
    CleanConcat(x, oldPath);
    CleanSuffix(x + oldPath, " -> ");
    var x2 := x + oldPath + " -> ";
    assert buf + "\t" + tag + " " + oldPath + " -> %new\n" == x2 + "%new\n";
    Fill(x2, "%new\n", "%new", newPath);
    RenamedShape(buf, tag, oldPath, newPath);
  }

  /** Lines 151-152 and 172-173 as written, on a clean buffer, equal the
      concatenated line. */
  lemma PlainFill(buf: string, path: string)
    requires Clean(buf)
    ensures ReplaceFirst(buf + "\t%file\n", "%file", path) == buf + LineText(Plain(path))
  {
    CleanSuffix(buf, "\t");
    assert buf + "\t%file\n" == (buf + "\t") + "%file\n";
    Fill(buf + "\t", "%file\n", "%file", path);
    PlainShape(buf, path);
  }

  /** Lines 73-75 and 127-129: append "\t%istatus %file\n" (or the %wstatus
      form) and fill each placeholder with ReplaceFirst on the whole buffer.
      On a clean buffer and path this appends exactly the line's text. */
  method AppendLabeledLine(buf: string, token: string, tag: string, path: string) returns (r: string)
    ensures StatusToken(token) && IsLabel(tag) && Clean(buf) && Clean(path) ==>
      r == buf + LineText(Labeled(tag, path)) && Clean(r)
  {
    r := buf + "\t" + token + " %file\n";
    r := ReplaceFirst(r, token, tag);
    r := ReplaceFirst(r, "%file", path);
    if StatusToken(token) && IsLabel(tag) && Clean(buf) && Clean(path) {
      LabeledFill(buf, token, tag, path);
      CleanLabeledLine(buf, tag, path);
    }
  }

  /** Lines 68-71 and 122-125: append "\t%istatus %old -> %new\n" (or the
      %wstatus form) and fill the placeholders with ReplaceFirst. */
  method AppendRenamedLine(buf: string, token: string, tag: string, oldPath: string, newPath: string)
    returns (r: string)
    ensures StatusToken(token) && IsLabel(tag) && Clean(buf) && Clean(oldPath) && Clean(newPath) ==>
      r == buf + LineText(Renamed(tag, oldPath, newPath)) && Clean(r)
  {
    r := buf + "\t" + token + " %old -> %new\n";
    r := ReplaceFirst(r, token, tag);
    r := ReplaceFirst(r, "%old", oldPath);
    r := ReplaceFirst(r, "%new", newPath);
    if StatusToken(token) && IsLabel(tag) && Clean(buf) && Clean(oldPath) && Clean(newPath) {
      RenamedFill(buf, token, tag, oldPath, newPath);
      CleanRenamedLine(buf, tag, oldPath, newPath);
    }
  }

  /** Lines 151-152 and 172-173: append "\t%file\n" and fill the placeholder
      with ReplaceFirst. */
  method AppendPlainLine(buf: string, path: string) returns (r: string)
    ensures Clean(buf) && Clean(path) ==> r == buf + LineText(Plain(path)) && Clean(r)
  {
    r := buf + "\t%file\n";
    r := ReplaceFirst(r, "%file", path);
    if Clean(buf) && Clean(path) {
      PlainFill(buf, path);
      CleanPlainLine(buf, path);
    }
  }

  /** Lines 64-76 and 118-130: a rename template when both paths are present
      and differ, otherwise the single-path template with the old path, or the
      new one when the old is null. */
  method AppendDeltaLine(buf: string, token: string, tag: string, d: Delta) returns (r: string)
    requires Displayable(d)
    ensures StatusToken(token) && IsLabel(tag) && Clean(buf) && PathsClean(d) ==>
      r == buf + LineText(DeltaLine(tag, d)) && Clean(r)
  {
    if d.oldPath.Some? && d.newPath.Some? && d.oldPath.value != d.newPath.value {
      r := AppendRenamedLine(buf, token, tag, d.oldPath.value, d.newPath.value);
    } else {
      r := AppendLabeledLine(buf, token, tag, if d.oldPath.Some? then d.oldPath.value else d.newPath.value);
    }
  }

  /** Finding: the placeholder search covers the whole buffer. Two
      untracked files, the first named `a` + "%file", are rendered by lines
      151-152 as written: the second name lands inside the FIRST line, and
      the second line keeps its raw placeholder. */
  lemma PlaceholderInPathCorruptsEarlierLine(buf: string, a: string, b: string)
    requires Clean(buf) && '%' !in a && (a == [] || a[|a| - 1] !in "%file") && '%' !in b
    ensures var first := ReplaceFirst(buf + "\t%file\n", "%file", a + "%file");
      var second := ReplaceFirst(first + "\t%file\n", "%file", b);
      && first == buf + LineText(Plain(a + "%file"))
      && second == buf + "\t" + a + b + "\n\t%file\n"
      && second != buf + LineText(Plain(a + "%file")) + LineText(Plain(b))
  {
    PlainFill(buf, a + "%file");
    SecondFillHitsFirstLine(buf, a, b);
    CorruptedDiffers(buf, a, b);
  }

  lemma SecondFillHitsFirstLine(buf: string, a: string, b: string)
    requires Clean(buf) && '%' !in a && (a == [] || a[|a| - 1] !in "%file")
    ensures ReplaceFirst(buf + LineText(Plain(a + "%file")) + "\t%file\n", "%file", b)
      == buf + "\t" + a + b + "\n\t%file\n"
  {
    var x := buf + "\t" + a;
    var y := "%file\n\t%file\n";
    PlainShape(buf, a + "%file");
    assert buf + LineText(Plain(a + "%file")) + "\t%file\n" == x + y;
    CleanSuffix(buf, "\t");
    CleanWithoutPercent(a);
    CleanConcat(buf + "\t", a);
    ReplaceAfter(x, y, "%file", b);
    assert y[5..] == "\n\t%file\n";
  }

  lemma CorruptedDiffers(buf: string, a: string, b: string)
    requires '%' !in b
    ensures buf + "\t" + a + b + "\n\t%file\n" != buf + LineText(Plain(a + "%file")) + LineText(Plain(b))
  {
    var x := buf + "\t" + a;
    var n := |x|;
    var first := LineText(Plain(a + "%file"));
    assert first == "\t" + (a + "%file") + "\n";
    assert first[1 + |a|] == '%';
    var intended := buf + first + LineText(Plain(b));
    assert (buf + first)[n] == '%';
    assert intended[n] == '%';
    var second := x + b + "\n\t%file\n";
    if b == [] {
      assert x + b == x;
      assert second[n] == '\n';
    } else {
      assert (x + b)[n] == b[0];
      assert second[n] == b[0];
    }
  }

  // ---------------------------------------------------------------------
  // The report builder
  // ---------------------------------------------------------------------

  /** No path of the delta contains a placeholder token. */
  ghost predicate PathsClean(d: Delta) {
    && (d.oldPath.Some? ==> Clean(d.oldPath.value))
    && (d.newPath.Some? ==> Clean(d.newPath.value))
  }

  /** No delta path of the entry contains a placeholder token. */
  ghost predicate PlaceholderFree(e: Entry) {
    && (e.headToIndex.Some? ==> PathsClean(e.headToIndex.value))
    && (e.indexToWorkdir.Some? ==> PathsClean(e.indexToWorkdir.value))
  }

  /** No delta path of any entry contains a placeholder token. */
  ghost predicate AllPlaceholderFree(es: seq<Entry>) {
    forall i | 0 <= i < |es| :: PlaceholderFree(es[i])
  }

  /** Section `k` grows by the line of entry `i` when the pass reaches it. */
  lemma LinesStep(k: Kind, es: seq<Entry>, i: nat)
    requires i < |es|
    ensures Lines(k, es[..i + 1]) == Lines(k, es[..i]) + Optional(SectionLine(k, es[i]))
    ensures SectionLine(k, es[i]).None? ==> Lines(k, es[..i + 1]) == Lines(k, es[..i])
  {
    assert es[..i + 1][..i] == es[..i];
    if SectionLine(k, es[i]).None? {
      assert Lines(k, es[..i]) + [] == Lines(k, es[..i]);
    }
  }

  lemma LinesTextSnoc(ls: seq<Line>, l: Line)
    ensures LinesText(ls + [l]) == LinesText(ls) + LineText(l)
  {
    var ls2 := ls + [l];
    assert ls2[..|ls|] == ls;
    assert ls2[|ls|] == l;
  }

  lemma PartStep(k: Kind, ls: seq<Line>, l: Line)
    ensures Part(k, ls + [l]) == (if ls == [] then Header(k) else Part(k, ls)) + LineText(l)
  {
    LinesTextSnoc(ls, l);
    if ls == [] {
      AppendEmpty(LineText(l));
    } else {
      AppendAssoc(Header(k), LinesText(ls), LineText(l));
    }
  }

  /** Appending a line to a pass's buffer extends that section by the line. */
  lemma PassStep(prefix: string, k: Kind, before: seq<Line>, l: Line, buf: string)
    requires buf == prefix + (if before == [] then Header(k) else Part(k, before))
    ensures buf + LineText(l) == prefix + Part(k, before + [l])
  {
    PartStep(k, before, l);
    AppendAssoc(prefix, if before == [] then Header(k) else Part(k, before), LineText(l));
  }

  /** The lazily printed header of a pass that has printed nothing yet. */
  lemma HeaderStep(prefix: string, k: Kind, buf: string)
    requires buf == prefix + Part(k, [])
    ensures buf + "\n" + Title(k) == prefix + Header(k)
  {
    assert buf == prefix;
    AppendAssoc(prefix, "\n", Title(k));
  }

  /** Where a pass starts and ends. */
  lemma PassBounds(prefix: string, k: Kind, es: seq<Entry>)
    ensures prefix + Part(k, Lines(k, es[..0])) == prefix
    ensures Lines(k, es[..|es|]) == Lines(k, es)
  {
    assert es[..0] == [];
    assert es[..|es|] == es;
  }

  /** The cascade of lines 44-53: each matching index flag overwrites the
      label, so the last one in source order decides it. */
  method IndexStatus(status: set<Flag>) returns (istatus: Option<string>)
    ensures istatus == IndexLabel(status)
    ensures istatus.Some? ==> IsLabel(istatus.value)
  {
    istatus := None;
    if IndexNew in status { istatus := Some("new file: "); }
    if IndexModified in status { istatus := Some("modified: "); }
    if IndexDeleted in status { istatus := Some("deleted:  "); }
    if IndexRenamed in status { istatus := Some("renamed:  "); }
    if IndexTypechange in status { istatus := Some("typechange:"); }
  }

  /** The cascade of lines 100-107, on the workdir flags. */
  method WorkdirStatus(status: set<Flag>) returns (wstatus: Option<string>)
    ensures wstatus == WorkdirLabel(status)
    ensures wstatus.Some? ==> IsLabel(wstatus.value)
  {
    wstatus := None;
    if WtModified in status { wstatus := Some("modified: "); }
    if WtDeleted in status { wstatus := Some("deleted:  "); }
    if WtRenamed in status { wstatus := Some("renamed:  "); }
    if WtTypechange in status { wstatus := Some("typechange:"); }
  }

  /** The status an entry must have, exactly, to be listed in a plain section. */
  function PlainStatus(k: Kind): set<Flag>
    requires k == UntrackedSection || k == IgnoredSection
  {
    if k == UntrackedSection then {WtNew} else {Ignored}
  }

  /** One step of the index pass: an entry that is not CURRENT and has an
      index flag adds its head-to-index line, any other adds nothing. */
  lemma StagedStep(es: seq<Entry>, i: nat, lines: seq<Line>)
    requires AllRenderable(es) && i < |es|
    requires lines == Lines(StagedSection, es[..i])
    ensures es[i].status == Current || IndexLabel(es[i].status).None? ==>
      Lines(StagedSection, es[..i + 1]) == lines
    ensures es[i].status != Current && IndexLabel(es[i].status).Some? ==>
      es[i].headToIndex.Some? && Displayable(es[i].headToIndex.value)
      && (AllPlaceholderFree(es) ==> PathsClean(es[i].headToIndex.value))
      && Lines(StagedSection, es[..i + 1])
        == lines + [DeltaLine(IndexLabel(es[i].status).value, es[i].headToIndex.value)]
  {
    LinesStep(StagedSection, es, i);
    assert Renderable(es[i]);
    if AllPlaceholderFree(es) {
      assert PlaceholderFree(es[i]);
    }
  }

  /** One step of the workdir pass: an entry that is not CURRENT, has an
      index-to-workdir delta and a workdir flag adds that delta's line, any
      other adds nothing. */
  lemma UnstagedStep(es: seq<Entry>, i: nat, lines: seq<Line>)
    requires AllRenderable(es) && i < |es|
    requires lines == Lines(UnstagedSection, es[..i])
    ensures es[i].status == Current || es[i].indexToWorkdir.None? || WorkdirLabel(es[i].status).None? ==>
      Lines(UnstagedSection, es[..i + 1]) == lines
    ensures es[i].status != Current && es[i].indexToWorkdir.Some? && WorkdirLabel(es[i].status).Some? ==>
      Displayable(es[i].indexToWorkdir.value)
      && (AllPlaceholderFree(es) ==> PathsClean(es[i].indexToWorkdir.value))
      && Lines(UnstagedSection, es[..i + 1])
        == lines + [DeltaLine(WorkdirLabel(es[i].status).value, es[i].indexToWorkdir.value)]
  {
    LinesStep(UnstagedSection, es, i);
    assert Renderable(es[i]);
    if AllPlaceholderFree(es) {
      assert PlaceholderFree(es[i]);
    }
  }

  /** One step of an untracked or ignored pass: an entry whose status is
      exactly that section's flag adds its old path, any other adds nothing. */
  lemma PlainStep(k: Kind, es: seq<Entry>, i: nat, lines: seq<Line>)
    requires k == UntrackedSection || k == IgnoredSection
    requires AllRenderable(es) && i < |es| && lines == Lines(k, es[..i])
    ensures es[i].status == PlainStatus(k) ==>
      es[i].indexToWorkdir.Some? && es[i].indexToWorkdir.value.oldPath.Some?
      && (AllPlaceholderFree(es) ==> Clean(es[i].indexToWorkdir.value.oldPath.value))
      && Lines(k, es[..i + 1]) == lines + [Plain(es[i].indexToWorkdir.value.oldPath.value)]
    ensures es[i].status != PlainStatus(k) ==> Lines(k, es[..i + 1]) == lines
  {
    LinesStep(k, es, i);
    assert Renderable(es[i]);
    if AllPlaceholderFree(es) {
      assert PlaceholderFree(es[i]);
    }
  }

  /** Lines 32-77: the pass over the index changes. Entries without an index
      flag are skipped; the header is printed before the first line. */
  method IndexChanges(entries: seq<Entry>, buf: string) returns (statusText: string, header: bool)
    requires AllRenderable(entries)
    ensures header <==> Lines(StagedSection, entries) != []
    ensures Clean(buf) && AllPlaceholderFree(entries) ==>
      statusText == buf + Part(StagedSection, Lines(StagedSection, entries)) && Clean(statusText)
  {
    statusText := buf;
    header := false;
    PassBounds(buf, StagedSection, entries);
    ghost var free := Clean(buf) && AllPlaceholderFree(entries);
    ghost var lines: seq<Line> := [];
    for i := 0 to |entries|
      invariant lines == Lines(StagedSection, entries[..i])
      invariant header <==> lines != []
      invariant free ==> statusText == buf + Part(StagedSection, lines) && Clean(statusText)
    {
      StagedStep(entries, i, lines);
      var s := entries[i];
      if s.status == Current {
        continue;
      }
      var istatus := IndexStatus(s.status);
      if istatus == None {
        continue;
      }
      if !header {
        ghost var pre := statusText;
        statusText := statusText + "\n";
        statusText := statusText + "Changes to be committed:\n";
        header := true;
        if free {
          if free {
            HeaderStep(buf, StagedSection, pre);
            CleanAppendHeader(pre, StagedSection);
          }
        }
      }
      ghost var text := statusText;
      var d := s.headToIndex.value;
      statusText := AppendDeltaLine(statusText, "%istatus", istatus.value, d);
      if free {
        PassStep(buf, StagedSection, lines, DeltaLine(istatus.value, d), text);
      }
      lines := lines + [DeltaLine(istatus.value, d)];
    }
  }

  /** Lines 84-131: the pass over the workdir changes to tracked files. */
  method WorkdirChanges(entries: seq<Entry>, buf: string) returns (statusText: string, header: bool)
    requires AllRenderable(entries)
    ensures header <==> Lines(UnstagedSection, entries) != []
    ensures Clean(buf) && AllPlaceholderFree(entries) ==>
      statusText == buf + Part(UnstagedSection, Lines(UnstagedSection, entries)) && Clean(statusText)
  {
    statusText := buf;
    header := false;
    PassBounds(buf, UnstagedSection, entries);
    ghost var free := Clean(buf) && AllPlaceholderFree(entries);
    ghost var lines: seq<Line> := [];
    for i := 0 to |entries|
      invariant lines == Lines(UnstagedSection, entries[..i])
      invariant header <==> lines != []
      invariant free ==> statusText == buf + Part(UnstagedSection, lines) && Clean(statusText)
    {
      UnstagedStep(entries, i, lines);
      var s := entries[i];
      if s.status == Current || s.indexToWorkdir.None? {
        continue;
      }
      var wstatus := WorkdirStatus(s.status);
      if wstatus == None {
        continue;
      }
      if !header {
        ghost var pre := statusText;
        statusText := statusText + "\n";
        statusText := statusText + "Changes not staged for commit:\n";
        header := true;
        if free {
          if free {
            HeaderStep(buf, UnstagedSection, pre);
            CleanAppendHeader(pre, UnstagedSection);
          }
        }
      }
      ghost var text := statusText;
      var d := s.indexToWorkdir.value;
      statusText := AppendDeltaLine(statusText, "%wstatus", wstatus.value, d);
      if free {
        PassStep(buf, UnstagedSection, lines, DeltaLine(wstatus.value, d), text);
      }
      lines := lines + [DeltaLine(wstatus.value, d)];
    }
  }

  /** Lines 137-155: the pass over the untracked files (status exactly WT_NEW). */
  method UntrackedFiles(entries: seq<Entry>, buf: string) returns (statusText: string)
    requires AllRenderable(entries)
    ensures Clean(buf) && AllPlaceholderFree(entries) ==>
      statusText == buf + Part(UntrackedSection, Lines(UntrackedSection, entries)) && Clean(statusText)
  {
    statusText := buf;
    var header := false;
    PassBounds(buf, UntrackedSection, entries);
    ghost var free := Clean(buf) && AllPlaceholderFree(entries);
    ghost var lines: seq<Line> := [];
    for i := 0 to |entries|
      invariant lines == Lines(UntrackedSection, entries[..i])
      invariant header <==> lines != []
      invariant free ==> statusText == buf + Part(UntrackedSection, lines) && Clean(statusText)
    {
      PlainStep(UntrackedSection, entries, i, lines);
      var s := entries[i];
      if s.status == {WtNew} {
        if !header {
          ghost var pre := statusText;
          statusText := statusText + "\n";
          statusText := statusText + "Untracked files:\n";
          header := true;
          if free {
            HeaderStep(buf, UntrackedSection, pre);
            CleanAppendHeader(pre, UntrackedSection);
          }
        }
        ghost var text := statusText;
        statusText := AppendPlainLine(statusText, s.indexToWorkdir.value.oldPath.value);
        if free {
          PassStep(buf, UntrackedSection, lines, Plain(s.indexToWorkdir.value.oldPath.value), text);
        }
        lines := lines + [Plain(s.indexToWorkdir.value.oldPath.value)];
      }
    }
  }

  /** Lines 157-175: the pass over the ignored files (status exactly IGNORED). */
  method IgnoredFiles(entries: seq<Entry>, buf: string) returns (statusText: string)
    requires AllRenderable(entries)
    ensures Clean(buf) && AllPlaceholderFree(entries) ==>
      statusText == buf + Part(IgnoredSection, Lines(IgnoredSection, entries)) && Clean(statusText)
  {
    statusText := buf;
    var header := false;
    PassBounds(buf, IgnoredSection, entries);
    ghost var free := Clean(buf) && AllPlaceholderFree(entries);
    ghost var lines: seq<Line> := [];
    for i := 0 to |entries|
      invariant lines == Lines(IgnoredSection, entries[..i])
      invariant header <==> lines != []
      invariant free ==> statusText == buf + Part(IgnoredSection, lines) && Clean(statusText)
    {
      PlainStep(IgnoredSection, entries, i, lines);
      var s := entries[i];
      if s.status == {Ignored} {
        if !header {
          ghost var pre := statusText;
          statusText := statusText + "\n";
          statusText := statusText + "Ignored files:\n";
          header := true;
          if free {
            HeaderStep(buf, IgnoredSection, pre);
            CleanAppendHeader(pre, IgnoredSection);
          }
        }
        ghost var text := statusText;
        statusText := AppendPlainLine(statusText, s.indexToWorkdir.value.oldPath.value);
        if free {
          PassStep(buf, IgnoredSection, lines, Plain(s.indexToWorkdir.value.oldPath.value), text);
        }
        lines := lines + [Plain(s.indexToWorkdir.value.oldPath.value)];
      }
    }
  }

  /** GetStatusTextUtil: the four passes over the entries, each appending to
      one buffer, then the advisory line when only the workdir pass printed.
      The text is the report of StatusText whenever no path holds a
      placeholder token; the advisory line ends the text whenever the rule
      asks for it, whatever the paths hold. */
  method GetStatusTextUtil(entries: seq<Entry>) returns (statusText: string)
    requires AllRenderable(entries)
    ensures AllPlaceholderFree(entries) ==> statusText == StatusText(entries)
    ensures NeedsAdvisory(entries) ==>
      |statusText| >= |AdvisoryText| && statusText[|statusText| - |AdvisoryText|..] == AdvisoryText
    ensures entries == [] ==> statusText == ""
  {
    var changesInIndex := false;
    var changesInWorkDir := false;
    CleanWithoutPercent("");
    var header;
    statusText, header := IndexChanges(entries, "");
    if header {
      changesInIndex := true;
    }
    AppendEmpty(Part(StagedSection, Lines(StagedSection, entries)));
    statusText, header := WorkdirChanges(entries, statusText);
    if header {
      changesInWorkDir := true;
    }
    statusText := UntrackedFiles(entries, statusText);
    statusText := IgnoredFiles(entries, statusText);
    if !changesInIndex && changesInWorkDir {
      ghost var before := statusText;
      statusText := statusText + "\nNo changes added to commit\n";
      assert statusText[|before|..] == AdvisoryText;
    } else {
      AppendEmpty(statusText);
    }
  }

  // ---------------------------------------------------------------------
  // Branch line and the whole text
  // ---------------------------------------------------------------------

  /** The branch name GetBranchText prints: the HEAD shorthand, and null for
      an unborn branch, a missing HEAD and any other lookup error. */
  function BranchName(h: HeadLookup): (b: Option<string>)
    ensures b.Some? <==> h.Head?
    ensures b.Some? ==> b.value == h.shorthand
  {
    match h
    case Head(name) => Some(name)
    case UnbornBranch => None
    case NotFound => None
    case OtherError(_) => None
  }

  function BranchText(b: Option<string>): string {
    "Branch: " + (if b.Some? then b.value else "No Branch info") + "\n"
  }

  /** The branch line determines the branch name, except that a branch
      literally named "No Branch info" reads like no branch at all. */
  lemma BranchTextDeterminesName(b: Option<string>, c: Option<string>)
    ensures BranchText(b) == BranchText(c) <==>
      (if b.Some? then b.value else "No Branch info") == (if c.Some? then c.value else "No Branch info")
  {
    var nb := if b.Some? then b.value else "No Branch info";
    var nc := if c.Some? then c.value else "No Branch info";
    if BranchText(b) == BranchText(c) {
      assert nb == BranchText(b)[8..|BranchText(b)| - 1];
      assert nc == BranchText(c)[8..|BranchText(c)| - 1];
    }
  }

  /** GetStatusText after the repository is opened and the status list is
      built: the branch line followed by the status text. */
  method GetStatusText(head: HeadLookup, entries: seq<Entry>) returns (text: string)
    requires AllRenderable(entries)
    ensures AllPlaceholderFree(entries) ==> text == BranchText(BranchName(head)) + StatusText(entries)
    ensures |text| >= 8 && text[..8] == "Branch: "
    ensures entries == [] ==> text == BranchText(BranchName(head))
  {
    var branchText := GetBranchText(head);
    var statusText := GetStatusTextUtil(entries);
    text := branchText + statusText;
  }

  /** The text part of GetBranchText, given the result of the HEAD lookup. */
  method GetBranchText(head: HeadLookup) returns (branchText: string)
    ensures branchText == BranchText(BranchName(head))
  {
    var branch: Option<string> := None;
    match head {
      case Head(name) => branch := Some(name);
      case UnbornBranch => branch := None;
      case NotFound => branch := None;
      case OtherError(_) => branch := None;
    }
    branchText := "Branch: ";
    branchText := branchText + (if branch.Some? then branch.value else "No Branch info");
    branchText := branchText + "\n";
  }
}
