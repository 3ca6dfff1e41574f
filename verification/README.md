# Verified models of SpatiumDDI's trickiest logic

This project models thirteen pieces of SpatiumDDI in Dafny and proves what their
comments and documentation promise. Where a promise does not hold of the code, the
model keeps the code and a theorem says exactly when it does hold.

| component | files | what is proved about it |
|---|---|---|
| Soft-delete query filter (`backend/app/db.py`) | `Query`, `SoftDelete`, `SoftDeleteRewrite`, `SoftDeleteMeaning`, `SoftDeleteSelect`, `SoftDeleteFilter`, `QueryMeaning`, `ReferenceCheck` | the filtered statement on all rows means the original on live rows; the reference check sees the trash |
| Changelog fold (`scripts/changelog_assemble.py`) | `Fragments`, `FragmentFaults`, `ChangelogFold`, `FoldMeaning`, `FoldEntries`, `FoldOrder` | which fragments are accepted; folding and reading is reading and merging |
| Release-notes formatter (`scripts/format_release_notes.py`) | `Text`, `ReleaseNotes`, `NotesBlocks`, `NotesKept`, `NotesLayout`, `NotesIdempotent`, `NotesCondense`, `NotesSections` | what a text comes out as, idempotence, nothing lost, the length limit, sections kept whole |
| Test durations (`scripts/merge_test_durations.py`) | `TestDurations`, `DurationTheorems` | runner speed cancels out, totals are conserved, refreshing converges |
| Liveness probe (`backend/app/worker_liveness.py`) | `WorkerLiveness` | restart bounds over every run |
| Bounded report (`scripts/check_blocklist_catalog.py`) | `BoundedReport`, `ReportMeaning`, `Numerals` | the byte bound; every finding is shown or counted |
| Image archive check (`appliance/scripts/verify-image-archive.py`) | `ImageArchive` | no problem exactly for complete archives |
| Migration heads (`scripts/release_schema_heads.py`) | `MigrationHeads`, `StringOrder` | every revision lies below a head |
| Release tags (`scripts/release_version.py`, `backend/app/core/versions.py`) | `ReleaseTags`, `ReleaseOrder`, `StringOrder`, `Splitting` | the order of releases, previous, newest and chart versions |
| Dockerfile stages (`scripts/lint_image_upgrades.py`) | `DockerStages`, `DockerQuotes` | stage ancestry and the comment scanner |
| Task context (`backend/app/celery_app.py`) | `TaskContext` | nested tasks give the context back |
| Path labels (`backend/app/metrics.py`) | `PathLabels` | labels give the templates back |
| Lint baseline (`scripts/lint_migrations.py`) | `LintBaseline` | what is written is read back |

`Sequences` holds facts about sequences of anything, `Options` the one option type,
`Characters` the character classes of Unicode that patterns use. `dafny verify dfyconfig.toml`
checks the whole project.

## How the models are built

A loop of the source is a method proved against a specification function or predicate;
the theorems are about the specification. Objects whose methods update fields (the
probe's state file, the worker's token table) are classes. Expressions are functions.

The query model is an abstract syntax tree of SELECTs with bare tables, named entities,
aliases, derived tables, inner and left outer join trees, join steps, correlated and
uncorrelated subqueries, and three-valued predicates. Its evaluator computes lists of
rows, so equal lists are more than equal bags. `Everything(db)` reads all rows,
`WithoutTrash(db, soft)` those with `deleted_at` NULL; a SELECT that asks for deleted
rows reads everything in both. `QueryMeaning` says without the evaluator what a SELECT
from tables returns (`SelectMeaning`: a row for each choice of one row a table that meets
the criteria) and what a join does (`JoinMeaning`). What is trusted of SQLAlchemy is where
loader criteria go: WHERE for named FROMs, ON for join targets, as the comment at
`backend/app/db.py:277-288` says.

Statements covered by `MeaningPreserved` (predicate `Supported`): joined soft tables are
named entities; a FROM list binds nothing twice; a nested SELECT that asks for deleted
rows neither names an entity the rest of the statement mentions nor shares a SELECT
object with it. The first and last are limits the source states itself.

## Promises that hold only under a condition

- The fold is a merge only if no entry holds a heading-like line at column 0; a fenced one
  passes the parser (`FoldIsMergeIff`, `FencedHeadingFails`). What is outside Unreleased
  stays either way (`OutsideIsKept`).
- The formatter's idempotence fails for an indented section heading, for a quote marker
  that the first pass leaves without its one space, and for an indented fence, which is read
  as prose the first time and as a fence the second, ahead of code that is not its own
  formatting (`IdempotentIff`, `IndentedHeadingFails`, `HalfQuotedFails`,
  `IndentedFenceFails`).
- "Never over the limit" (`scripts/format_release_notes.py:290`) fails when the limit is
  below the length of the cut notice and the text is over it (`Condense`,
  `LimitOf40Fails`). The cut is at a line boundary (`scripts/format_release_notes.py:289-290`)
  only if a line ends where the notice still has room (`CutShortIs`).
- "Never longer than `max_bytes`" (`scripts/check_blocklist_catalog.py:575`) holds at 60,000
  bytes, the limit of the script, and above it (`RenderMarkdown`). Only limits below the
  skeleton with its notes fail (`BoundKeptIff`, `LimitOf26Fails`).
- "At most grace + 150 s" (`backend/app/worker_liveness.py:14-17`) needs the grace to be a
  whole number of periods; otherwise it is up to one period more. It also needs the start
  of the outage to be recorded: a worker whose probes cannot write their state is never
  restarted while the broker is down (`DeadlineIff`, `LostIsRestarted`,
  `UnwrittenIsForgiven`).
- That the banner, the summary, and the Migrations and Breaking sections stay as they are
  (`scripts/format_release_notes.py:286-288`) holds of their lines up to blank ones: exactly
  one comes behind a heading, and every run of them becomes one, in code too
  (`SectionIsKept`, `SpacedIff`, `BlankRunFails`). It fails for a code block that holds a
  section heading (`CodeInSectionFails`); such a block before the summary also draws the
  notice there (`NoticeAfterSummaryIff`, `CodeBeforeSummaryFails`).
- One tag a chart version needs years from 1000 on and ASCII digits: `0999.10.10-1` and
  `999.10.10-1` share a chart version, and so do `2026.04.20-1` and its spelling in
  full-width digits, all of them accepted (`OneTagPerChartIff`, `FullWidthYear`). Strict
  SemVer of a SemVer tag's chart needs ASCII digits too (`ChartIsSemVerIff`,
  `FullWidthMinor`).
- Third-party text in the report stays on its line only without a carriage return
  (`CodeIsOneSpan`).
- The context is given back exactly when every outermost task has an id and no task inside
  it has the same one; what happens inside does not matter (`ContextIsRestoredIff`,
  `ReusedIdLeaks`, `MissingIdLeaks`).
- A label gives the template back only if parameter values differ from each other and
  from the literal segments of the prefix (`RoundTripIff`, `SharedValueFails`).
- A finding is lost from the baseline when its path starts with a space or a hash, its rule
  holds a colon, or either holds a line break (`OwnEntryIff`, `LostFindings`).

## Model

| member | source | states |
|---|---|---|
| `SoftDelete.WalkStatement` | backend/app/db.py:376-409 | The explicit-stack walk meets, as a multiset, exactly what a recursive reference walk reaches from the statement, nested opted-out SELECTs pruned, and its class set, table set and SELECT list are those of what it met. |
| `SoftDelete.Note` | backend/app/db.py:397-407 | What one element adds to the classes, table names and SELECTs found. |
| `SoftDelete.SoftOnceMeaning` | backend/app/db.py:498-509 | The keys kept are exactly the soft candidates that are neither covered nor joined, each of them once. |
| `SoftDelete.ImplicitSoftDeleteFroms` | backend/app/db.py:461-509 | The loops over columns, FROMs, join targets and criteria return the soft FROMs that loader criteria miss, as specified by `ImplicitKeys`. |
| `SoftDeleteFilter.ScanStatement` | backend/app/db.py:360-373 | The models returned are those some reached element mentions by class or by table, and the SELECTs are exactly those reached; every model and no SELECT when the walk raises. |
| `SoftDeleteFilter.CollectNeeds` | backend/app/db.py:523-528 | A SELECT that lacks no predicate has no entry; every other one has exactly its own keys. |
| `SoftDeleteRewrite.Rewrite` | backend/app/db.py:532-550 | The memoised rewrite ends and gives every SELECT of the tree its own predicates, also where one SELECT object stands in several places; every memo entry is the finished rewrite of its object. |
| `SoftDeleteRewrite.Replace` | backend/app/db.py:539-544 | A child SELECT that needs predicates is replaced by its own rewrite, any other element by a copy with rewritten parts: both are the one tree transformation `Rewritten`. |
| `SoftDeleteRewrite.GuardedTwice` | backend/app/db.py:599-636 | WHERE predicates added by the rewrite and loader criteria added afterwards compose: each FROM gets both kinds exactly once, neither pass takes the other's predicates for something to guard. |
| `SoftDeleteFilter.FilterImplicitFroms` | backend/app/db.py:512-550 | The result is the rewrite of the statement by exactly the needs of the SELECTs reached, the statement itself when there are none. |
| `SoftDeleteSelect.NoNewFroms` | backend/app/db.py:512-519 | A guarded SELECT selects from exactly the FROM elements it selected from before. |
| `SoftDeleteSelect.EveryFromIsTested` | backend/app/db.py:277-288 | Every soft FROM of a SELECT that no ON clause guards has a predicate in its WHERE. |
| `SoftDeleteSelect.EachFromTestedOnce` | backend/app/db.py:430-448 | The predicates a SELECT gains, from the rewrite and from the ORM together, name no FROM element twice. |
| `SoftDeleteMeaning.TestsMeaning` | backend/app/db.py:546 | The added predicates hold exactly of the rows whose soft tables are not in the trash; a row of NULLs made up by an outer join counts as live. |
| `SoftDeleteMeaning.BindSame` | backend/app/db.py:277-283 | Binding every row of a soft table and dropping trash is binding its live rows, in order. |
| `SoftDeleteMeaning.MatchSpread` | backend/app/db.py:280-281 | An inner or outer join whose target is guarded in ON brings in no trashed row. |
| `SoftDeleteSelect.MatchesSame` | backend/app/db.py:444-448 | One row joined with a guarded target on all rows gives what the plain join gives on live rows, NULL-extended rows included. |
| `SoftDeleteSelect.SelectSame` | backend/app/db.py:567-596 | A guarded SELECT at a clean row of its enclosing query returns on all rows what the plain SELECT returns on live rows, to any nesting depth. |
| `SoftDeleteFilter.LeftAloneIff` | backend/app/db.py:520-550 | The filter returns an element unchanged exactly when nothing in it is named to the ORM and none of its SELECTs lacks a predicate. |
| `SoftDeleteFilter.CorrelatedTestsChangeNothing` | backend/app/db.py:430-448 | The predicate on an outer FROM that a subquery is correlated to changes nothing at a row without trash. |
| `SoftDeleteFilter.OuterJoinKeepsRow` | backend/app/db.py:444-448 | A guarded outer join still returns a row that has only trashed partners, with NULLs for them. |
| `SoftDeleteFilter.OptOutSeesTrash` | backend/app/db.py:412-427 | `exists_including_deleted` passes the filter as it was written exactly when its criteria name no guarded entity and hold no SELECT that lacks a predicate; where trash is hidden it answers as where nothing is. |
| `ReferenceCheck.ReferenceCheckMeaning` | backend/app/db.py:412-427 | On every database the check is true when some choice of one row, trashed or not, for each table its criteria bring in meets all of them, and false otherwise. |
| `ReferenceCheck.StillReferenced` | backend/app/db.py:415-420 | Asked whether anything points at a row, it is true exactly when some row of the other table holds that row's id, in the trash or not. |
| `SoftDeleteFilter.MeaningPreserved` | backend/app/db.py:599-636 | For every covered statement and database, and any models to guard that include those the statement references: the filtered statement on all rows returns the rows of the original on live rows, in the same order and number. |
| `SoftDeleteFilter.ApplySoftDeleteFilter` | backend/app/db.py:599-636 | The filtered statement is the original guarded for exactly the models it references, with every need rewritten; loader criteria alone when the rewriting raises, and for every model when the walk does. |
| `SoftDeleteFilter.FilterSoftDeleted` | backend/app/db.py:592-636 | End to end: no SELECT, or one that asks for deleted rows, is left alone; any covered SELECT returns, on every database, what it would if the trash were gone, also when the walk or the rewriting raises and there was nothing to rewrite. |
| `Fragments.ParseFragment` | scripts/changelog_assemble.py:136-197 | The line loop and its clean-up accept a fragment with its trimmed sections, or refuse it with all its problems in order. |
| `Fragments.ParseIsLossless` | scripts/changelog_assemble.py:150-183 | A fragment with no problem is some blank lines followed by every heading with its lines, in order: the parser loses and moves nothing. |
| `Fragments.ParseIsWellformed` | scripts/changelog_assemble.py:155-169 | On every input each section is opened once, is a known one, and has a body. |
| `Fragments.AcceptedHasEntries` | scripts/changelog_assemble.py:184-197 | An accepted fragment has a section, every section is known, and its entries neither start nor end with a blank line nor are missing. |
| `Fragments.TrimIs` | scripts/changelog_assemble.py:186-190 | Trimming takes blank lines off the two ends, all of them and nothing else. |
| `FragmentFaults.HeadingIff` | scripts/changelog_assemble.py:81 | A line is taken for the heading of a section exactly when it is three hashes, spaces and that title. |
| `FragmentFaults.AcceptedIff` | scripts/changelog_assemble.py:136-197 | Told from the lines alone: a fragment is accepted exactly when its name is right, its fences are closed, every hash that starts a line outside code starts the heading of a known section, each of these comes once and has entries, there is one, and only blank lines stand ahead of it. |
| `ChangelogFold.UnreleasedBounds` | scripts/changelog_assemble.py:200-216 | The bounds are those of the Unreleased body: after its heading, up to the next release heading or the end. |
| `ChangelogFold.SectionTop` | scripts/changelog_assemble.py:219-239 | An existing section's first entry is found past its blank lines; a missing one is put, between blank lines, before the first later section or at the end. |
| `ChangelogFold.FoldOne` | scripts/changelog_assemble.py:264-276 | Splicing into the whole list at an absolute index is splicing the section's block into the Unreleased body. |
| `ChangelogFold.Assemble` | scripts/changelog_assemble.py:242-277 | Any fragment with a problem: all problems of all such fragments, in order. Otherwise: no fragments, no change; no Unreleased section, an error; else every section folded in canonical order. |
| `FoldEntries.FilesInOrder` | scripts/changelog_assemble.py:250-259 | Fragments, and problems, come in the order of their files. |
| `FoldEntries.OneFile` | scripts/changelog_assemble.py:252-257 | A file gives its fragment when it has no problem, and else its problems. |
| `FoldEntries.BodiesForSum` | scripts/changelog_assemble.py:265 | A section's bodies come in the order of their fragments. |
| `FoldEntries.BodiesForOne` | scripts/changelog_assemble.py:265 | A fragment gives its entries of a section once, and nothing when it has none. |
| `FoldEntries.EntriesInPlace` | scripts/changelog_assemble.py:242-249 | After the fold a fragment's entries read behind those of the fragments given before it and ahead of those given after it and of what the section held. |
| `FoldEntries.FragmentsInOrder` | scripts/changelog_assemble.py:242-249 | Of any two fragments with entries for a section, those of the one given first stand wholly above those of the other, blank lines between. |
| `FoldEntries.NewSectionStandsApart` | scripts/changelog_assemble.py:226-235 | A section that was not there gets a blank line before its heading, one behind it and one behind its entries, and nothing else changes. |
| `FoldMeaning.FoldBodyMeaning` | scripts/changelog_assemble.py:264-276 | Folding one section puts its fragments' entries before what that section held and changes what no other section holds. |
| `FoldMeaning.FoldedMeaning` | scripts/changelog_assemble.py:242-249 | After folding any list of sections, each of them holds the fragments' entries in the given order and then its old ones; the other sections are as before. |
| `FoldMeaning.FoldIsMergeIff` | scripts/changelog_assemble.py:242-249 | Reading the folded changelog equals merging what was read before, exactly when no entry holds a line the changelog takes for a heading (a fenced one is enough). |
| `FoldMeaning.AssembledIsMergeIff` | scripts/changelog_assemble.py:136-197 | For fragment files as the parser reads them: when none has a problem, folding and reading is reading and merging exactly when no entry holds a heading-like line. |
| `FoldMeaning.FencedHeadingIsAccepted` | scripts/changelog_assemble.py:150-183 | The parser has no problem with a fragment whose code block holds a heading, and keeps the block as entries. |
| `FoldMeaning.FencedHeadingFails` | scripts/changelog_assemble.py:242-249 | Any heading-like line inside a code block makes a fragment that is accepted and whose fold is no merge. |
| `FoldMeaning.OutsideIsKept` | scripts/changelog_assemble.py:200-216 | For any fragments: what is before the Unreleased body stays, and the released sections stay, line by line, at the end. When no entry holds a heading-like line they are also read as before. |
| `FoldMeaning.OldLinesAreKept` | scripts/changelog_assemble.py:242-277 | The old changelog is a subsequence of the new one, whatever the fragments hold. |
| `FoldOrder.FoldKeepsOrder` | scripts/changelog_assemble.py:226-235 | Known sections in canonical order, each once, stay so when one section is folded. |
| `FoldOrder.OrderIsKept` | scripts/changelog_assemble.py:264-276 | They stay so over the whole fold. |
| `ReleaseNotes.RewriteHeadingOnce` | scripts/format_release_notes.py:102-116 | Rewriting a heading twice is rewriting it once, its level stays, and it changes exactly when its title is one of the known sections. |
| `ReleaseNotes.RewriteHeadingInk` | scripts/format_release_notes.py:102-116 | A rewritten heading gains its emoji and loses nothing but spaces. |
| `NotesBlocks.JoinWrapped` | scripts/format_release_notes.py:130-146 | The join loop puts no space after a word's soft hyphen and one space everywhere else. |
| `NotesBlocks.Flush` | scripts/format_release_notes.py:148-181 | Flushing the open paragraph or bullet emits what the block it closes is rendered as, the Highlights heading included when it is due. |
| `NotesBlocks.Feed` | scripts/format_release_notes.py:183-236 | One line of the state machine is one step of the reference cut into blocks, rendered. |
| `NotesBlocks.Transform` | scripts/format_release_notes.py:119-244 | The whole state machine emits the rendering of the text's blocks without trailing blank lines. |
| `NotesLayout.LayoutIff` | scripts/format_release_notes.py:183-239 | The blocks a text is read as are its one layout: of headings, code, bullets with the lines they are wrapped over and paragraphs, no two of which could be one, told from the kinds of line alone. |
| `NotesLayout.TransformedIs` | scripts/format_release_notes.py:119-244 | The text comes out as the parts of its layout in order: each bullet and paragraph as one line, code as it is, a quotation marked once, the Highlights heading ahead of the first prose unless a section is opened before it. |
| `NotesLayout.JoinIsOneLine` | scripts/format_release_notes.py:130-146 | Joining puts the pieces of the lines in order, a space between two and none after a word character and a hyphen, which the last piece alone decides. |
| `NotesLayout.BulletIsOneLine` | scripts/format_release_notes.py:214-231 | A bullet and any number of lines wrapped under it by two spaces or a tab become exactly one line, the pieces of them all. |
| `NotesLayout.ProseIsOneLine` | scripts/format_release_notes.py:148-174 | Any number of lines of prose become exactly one line, under the Highlights heading. |
| `NotesLayout.KnownHeading` | scripts/format_release_notes.py:102-116 | A heading of a known section is its hashes, the section's emoji and the title, one space between. |
| `NotesLayout.SectionTable` | scripts/format_release_notes.py:52-61 | The eight known sections and their emoji. |
| `NotesLayout.OtherHeading` | scripts/format_release_notes.py:105-114 | A heading of any other title stays as it is. |
| `NotesLayout.UnmarkedIs` | scripts/format_release_notes.py:96-99 | Unquoting takes the spaces before the marker, the marker, and one space behind it. |
| `NotesKept.BlocksAreTheText` | scripts/format_release_notes.py:183-239 | The cut into blocks loses, doubles and moves no line. |
| `NotesKept.InkIsKept` | scripts/format_release_notes.py:119-244 | Every non-space character of the text's content comes out in order; beyond it there are only the Highlights heading, section emoji and one quote marker a callout. |
| `NotesIdempotent.ReadTwice` | scripts/format_release_notes.py:183-239 | A rendered block is read again as that block, or as the single line it was joined to. |
| `NotesIdempotent.RenderTwice` | scripts/format_release_notes.py:148-181 | Rendered a second time a block is line for line what it was, exactly when it is steady. |
| `NotesIdempotent.IdempotentIff` | scripts/format_release_notes.py:32-34 | For every text: transforming twice is transforming once exactly when no paragraph is joined to a line that would be rewritten the second time (a known section heading, or a quote marker not followed by one space), up to the first one joined to a fence line, and behind that one every stretch of code is its own formatting. |
| `NotesIdempotent.IdempotentWhenFlush` | scripts/format_release_notes.py:32-34 | The documented claim, for every text whose paragraphs start at column 0 and are wholly quoted or not quoted at all. |
| `NotesIdempotent.IndentedHeadingFails` | scripts/format_release_notes.py:32-34 | The claim fails for an indented section heading, for every section title. |
| `NotesIdempotent.HalfQuotedFails` | scripts/format_release_notes.py:32-34 | The claim fails for a paragraph of a line quoted without a space and a line that is not quoted, for all such lines. |
| `NotesIdempotent.IndentedFenceFails` | scripts/format_release_notes.py:32-34 | The claim fails for an indented fence in front of a code block of two lines of prose, for all such lines: the second time the code is joined. |
| `NotesCondense.HeadlineIsACut` | scripts/format_release_notes.py:269-280 | A headline says the start of its bullet, perhaps with an ellipsis, and is at most one character longer. |
| `NotesCondense.BoldLeadIsHeadline` | scripts/format_release_notes.py:269-273 | A bullet with a bold lead is cut right behind it. |
| `NotesCondense.SentenceIsHeadline` | scripts/format_release_notes.py:274-277 | Without one it is cut behind its first sentence that is at least 21 characters long, if that is at most 200. |
| `NotesCondense.CutIsHeadline` | scripts/format_release_notes.py:278-280 | Otherwise it is kept up to 200 characters, and a longer one is cut to them at its last space and marked. |
| `NotesCondense.CondenseLine` | scripts/format_release_notes.py:302-320 | One turn of the loop lays out one line more, blank lines included, with at most one notice. |
| `NotesCondense.CondenseLines` | scripts/format_release_notes.py:299-322 | The text is that of the layout: the notice once, in front of the first section that is not the Highlights or at the end, headings and notice between blank lines, kept sections line by line, elsewhere one headline a bullet, no blank line behind another except before a notice at the end; blank lines aside, exactly what is shown, in order. |
| `NotesCondense.LayoutShows` | scripts/format_release_notes.py:302-322 | Blank lines aside the layout is what is shown: nothing else comes in, and nothing of it is lost. |
| `NotesCondense.CutShortFits` | scripts/format_release_notes.py:326-328 | The cut result is a prefix of the condensed notes and the cut notice, and within the limit exactly when that notice alone is. |
| `NotesCondense.CutShortIs` | scripts/format_release_notes.py:326-328 | The cut is at the last newline that leaves room for the notice; without one, in the middle of a line and one character early. |
| `NotesCondense.CondensedIsLonger` | scripts/format_release_notes.py:283-328 | Notes that hold the condensed notice are longer than the cut notice, whatever is stripped around them. |
| `NotesCondense.Condense` | scripts/format_release_notes.py:283-328 | The result is the text if it fits, else the laid-out notes if they fit, else their cut, and within the limit exactly when the text or the cut notice alone is. |
| `NotesCondense.LimitOf40Fails` | scripts/format_release_notes.py:326-328 | No text that has to be cut gets within a limit of 40 characters. |
| `NotesSections.TitleStays` | scripts/format_release_notes.py:263-266 | The emoji a heading gains changes neither its section's title nor whether it opens a section; the title of a known section is its plain name. |
| `NotesSections.HighlightsTitle` | scripts/format_release_notes.py:254-266 | The heading `transform` writes over the summary is titled Highlights, so its section is kept and the notice is not put there. |
| `NotesSections.ShownWholeIff` | scripts/format_release_notes.py:302-320 | A stretch of lines is shown as it is exactly when each line is blank, a heading, in a section kept whole, or a bullet that is its own headline. |
| `NotesSections.SectionIsKept` | scripts/format_release_notes.py:254-258 | In the notes `transform` wrote, the summary under its Highlights heading and every Migrations or Breaking section whose code and prose hold no section heading stand whole, in one piece and without the notice, in the condensed notes: line for line, with one blank line behind the heading and one for each run of them after it. |
| `NotesSections.SpacedIff` | scripts/format_release_notes.py:310-317 | So a kept section is the same to the line exactly when one blank line follows its heading and no two blank lines follow each other. |
| `NotesSections.BlankRunFails` | scripts/format_release_notes.py:283-317 | The claim fails for two blank lines of code in a kept section, for every heading of one: they come out as one. |
| `NotesSections.HeadlinesOfSection` | scripts/format_release_notes.py:318-320 | Any other section comes out as its heading, a blank line, and the headlines of its bullets in order, one below the other. |
| `NotesSections.NoticeAfterSummaryIff` | scripts/format_release_notes.py:298-311 | In the notes `transform` wrote the notice comes behind the summary exactly when no code line before it, nor the summary itself, is a heading of another section. |
| `NotesSections.CodeInSectionFails` | scripts/format_release_notes.py:283-318 | A heading inside a code block of a Migrations or Breaking section ends it: the end of the code block is dropped. |
| `NotesSections.CodeBeforeSummaryFails` | scripts/format_release_notes.py:283-311 | The notice stands before the summary when a code block before it holds the heading of any other section. |
| `TestDurations.MergeShard` | scripts/merge_test_durations.py:104-118 | After one shard every weight is an old one or an offer of the shard, and no offer and no old weight is lost to a smaller one. |
| `TestDurations.Merge` | scripts/merge_test_durations.py:90-119 | The merged map holds exactly the tests the shards ran, each at the largest weight offered, and the factors are the shards' own. |
| `TestDurations.MergeIsUnique` | scripts/merge_test_durations.py:94-95 | Two merges of the same shards are the same map, whatever order the shard files come in. |
| `TestDurations.FactorIff` | scripts/merge_test_durations.py:78-87 | A shard has a speed factor exactly when at least half of its tests are known and both sums over them are above zero. |
| `TestDurations.WeightOffered` | scripts/merge_test_durations.py:105-110 | A known test's weight is the mean of its normalized and its committed time, a new one's the normalized time. |
| `TestDurations.Drift` | scripts/merge_test_durations.py:143-165 | At any list of factors the accumulator loops compute the sums and tests of all shards; at those a merge returns this is the drift of the shards; an error when the numbers of shards and factors differ. |
| `TestDurations.DriftAfterMerge` | scripts/merge_test_durations.py:143-165 | The sums at the factors a merge returns are those of the shards at their own divisors. |
| `TestDurations.SumsOfOne` | scripts/merge_test_durations.py:153-160 | A test counts with its normalized time, as moved by how far that is from the committed one when it is known, and wholly as unknown when it is not. |
| `TestDurations.SumsOfSum` | scripts/merge_test_durations.py:149-160 | A shard's sums are the sums over its tests. |
| `TestDurations.CountsMeaning` | scripts/merge_test_durations.py:161-162 | Added are the tests that ran and are not committed, removed the committed ones that did not run. |
| `DurationTheorems.FactorScaled` | scripts/merge_test_durations.py:78-87 | Measuring c times as slow makes the speed factor c times as large. |
| `DurationTheorems.RunnerSpeedDoesNotMatter` | scripts/merge_test_durations.py:78-119 | Multiplying one shard's measurements by any c > 0, where the shard has a factor, changes neither what a merge is nor the drift report. |
| `DurationTheorems.TotalIsConserved` | scripts/merge_test_durations.py:98-118 | A refresh keeps the committed total of a shard whose tests are all known and its own. |
| `DurationTheorems.ProportionalIsFixed` | scripts/merge_test_durations.py:78-87 | A shard measured in proportion to the committed file has that proportion as its factor, offers the committed weights, and moves nothing. |
| `DurationTheorems.ProportionalSuiteIsFixed` | scripts/merge_test_durations.py:90-165 | When every shard is measured in proportion to the committed file, each at its own runner's speed, tests shared between shards and tests of no weight included, the merged file is the committed one on the tests that ran, and the report says no drift, nothing unknown and nothing added. |
| `DurationTheorems.OneRefresh` | scripts/merge_test_durations.py:104-112 | One refresh puts every test halfway between its weight and its target, whatever the runner's speed. |
| `DurationTheorems.GeometricConvergence` | scripts/merge_test_durations.py:98-119 | After k refreshes, each on a runner of any speed, a test's weight is target + (start - target) / 2^k. |
| `WorkerLiveness.Container.Probe` | backend/app/worker_liveness.py:106-133 | One probe's exit code is that of `decide` on the state it found, and the state it leaves too when it can be written; otherwise that stays. |
| `WorkerLiveness.Container.Live` | backend/app/worker_liveness.py:117-133 | Probe after probe the file holds the state of the run so far, and the container lives exactly until `threshold` failures in a row. |
| `WorkerLiveness.StateMeaning` | backend/app/worker_liveness.py:61-79 | Whatever the broker does and whatever can be written, the state is the time of the first failure recorded since the last recorded good ping, or nothing when there is none. |
| `WorkerLiveness.StateIsFirstFailure` | backend/app/worker_liveness.py:21-24 | In an outage whose start is recorded the stored time is that of the first failure since the last good ping, whatever can be written later: a flap never renews the grace. |
| `WorkerLiveness.CountsWhen` | backend/app/worker_liveness.py:53-58 | Whatever could be written: a failed probe counts exactly when the broker is reachable or the grace since the recorded start is used up; with nothing recorded, when there is no grace at all. |
| `WorkerLiveness.CountsIff` | backend/app/worker_liveness.py:53-58 | A failed probe counts exactly when the broker is reachable or the grace since the first failure is used up. |
| `WorkerLiveness.SilentWorkerIsRestarted` | backend/app/worker_liveness.py:17-19 | A worker silent on a reachable broker fails at every probe and is restarted by the `threshold`-th, whatever came before. |
| `WorkerLiveness.NoRestartWithinGrace` | backend/app/worker_liveness.py:11-14 | No failure is counted while every failed probe found the broker unreachable within the grace. |
| `WorkerLiveness.UnwrittenIsForgiven` | backend/app/worker_liveness.py:76-79 | While no failure can be recorded and the broker is down nothing is ever counted, however long that lasts. |
| `WorkerLiveness.RestartBound` | backend/app/worker_liveness.py:14-17 | With probes at most a period apart, a failed probe that comes grace + threshold periods after the last good ping finds the worker restarted, whatever the broker does. |
| `WorkerLiveness.LostIsRestarted` | backend/app/worker_liveness.py:14-17 | At an exact period a lost worker is restarted within ceil(grace / period) + threshold probes. |
| `WorkerLiveness.DownAllAlong` | backend/app/worker_liveness.py:53-58 | With the broker down all along the failure count is 0 until the grace is used up and then grows by one a probe, so that bound is attained. |
| `WorkerLiveness.DeadlineIff` | backend/app/worker_liveness.py:14-17 | "At most grace + threshold periods after the last good ping" holds over every run exactly when the grace is a whole number of periods and either the outage's start is recorded or there is no grace. |
| `BoundedReport.SizeIsCost` | scripts/check_blocklist_catalog.py:612-613 | `size` is additive over lists of lines that are not empty. |
| `BoundedReport.CodeIsOneSpan` | scripts/check_blocklist_catalog.py:435-437 | Third-party text in a code span holds no further backtick and no newline, and stays on its line exactly when it holds no carriage return. |
| `BoundedReport.Fill` | scripts/check_blocklist_catalog.py:623-629 | The row loop takes the longest prefix of rows the budget pays for, and charges for exactly those. |
| `BoundedReport.ShowSections` | scripts/check_blocklist_catalog.py:621-633 | Each section shows a prefix of its rows and a note that counts the others, each taking what it can of the budget the earlier ones left. |
| `BoundedReport.BuildSections` | scripts/check_blocklist_catalog.py:592-601 | The sections are the kinds that have findings, in table order, with all their rows. |
| `ReportMeaning.RowsAreCounted` | scripts/check_blocklist_catalog.py:595-602 | A kind has as many rows as the report has findings of it. |
| `ReportMeaning.RowInPlace` | scripts/check_blocklist_catalog.py:595-602 | Each finding's row stands in its kind's section, behind those of earlier findings and ahead of those of later ones. |
| `ReportMeaning.SectionOfKind` | scripts/check_blocklist_catalog.py:594-603 | Each kind with findings has its section, titled with their number, in the order of the kinds. |
| `ReportMeaning.EveryFindingCounts` | scripts/check_blocklist_catalog.py:620-634 | However the report is cut, for each kind with findings it shows the title with their number, the first rows, and a note whose number and the rows shown are together all of them. |
| `ReportMeaning.GroupedMeaning` | scripts/check_blocklist_catalog.py:605 | A grouped count is the count with commas, the last of them three digits before the end. |
| `ReportMeaning.RowOfTable` | scripts/check_blocklist_catalog.py:604-607 | The table has a row a source, in order: its name, what it holds and what was skipped. |
| `ReportMeaning.HeadSays` | scripts/check_blocklist_catalog.py:581-592 | The head starts with the marker, says that all is well exactly when there are no findings, and that the registry could not be read exactly when so. |
| `ReportMeaning.KindsAre` | scripts/check_blocklist_catalog.py:563-571 | The seven kinds and their titles. |
| `BoundedReport.RenderMarkdown` | scripts/check_blocklist_catalog.py:574-647 | The markdown is the greedy cut of the report's parts. At any limit of 60,000 bytes or more it is below the limit, whatever the findings; at a smaller one it is within it exactly when the report with every row left out is. |
| `BoundedReport.LimitOf26Fails` | scripts/check_blocklist_catalog.py:575 | At a limit of 26 bytes every report is over it: the first line and its line break take more. |
| `BoundedReport.LinesSize` | scripts/check_blocklist_catalog.py:615-619 | Every byte of a cut report is accounted for by the skeleton, the rows shown and the notes. |
| `BoundedReport.BoundKeptIff` | scripts/check_blocklist_catalog.py:575 | The report is within `max_bytes` exactly when the report with every row left out is. |
| `BoundedReport.ReportIsListable` | scripts/check_blocklist_catalog.py:592-606 | A report within Python's own length limit for lists has parts whose notes can be counted in the room reserved for them. |
| `BoundedReport.SkeletonFits` | scripts/check_blocklist_catalog.py:615-619 | When the skeleton and the room for its notes fit, so does the report, whatever the findings. |
| `BoundedReport.ReportIsSmall` | scripts/check_blocklist_catalog.py:574-606 | Every report has such a skeleton: bounded head, tail and titles, for any counts Python can have. |
| `BoundedReport.BudgetIsLeft` | scripts/check_blocklist_catalog.py:615-619 | From 60,000 bytes on, a skeleton of few and short lines leaves a budget for rows. |
| `BoundedReport.OneCut` | scripts/check_blocklist_catalog.py:621-633 | There is one greedy cut of the sections. |
| `BoundedReport.CompleteIff` | scripts/check_blocklist_catalog.py:577-579 | Nothing is left out exactly when the budget pays for every row. |
| `BoundedReport.BoundedLines` | scripts/check_blocklist_catalog.py:574-647 | The bound, on whatever parts and whatever limit. |
| `ImageArchive.CheckManifest` | appliance/scripts/verify-image-archive.py:54-65 | The problems of a manifest are its config's and then its layers', in order. |
| `ImageArchive.CheckDescriptor` | appliance/scripts/verify-image-archive.py:68-94 | The recursion ends on every blob graph, with the limit minus the depth as its measure, and returns the problems of everything it reaches, in order. |
| `ImageArchive.Verify` | appliance/scripts/verify-image-archive.py:97-117 | The problems of either layout, in order. |
| `ImageArchive.CleanIff` | appliance/scripts/verify-image-archive.py:68-94 | No problem below a descriptor exactly when every chain of target-platform entries from it ends in something sound for its depth. |
| `ImageArchive.AcceptedIff` | appliance/scripts/verify-image-archive.py:97-106 | An `index.json` archive passes exactly when the index lists something and on every chain from it each blob is there and valid, each index lists the platform within the nesting limit, and each manifest has its config and all its layers. |
| `ImageArchive.LegacyAcceptedIff` | appliance/scripts/verify-image-archive.py:107-116 | A `manifest.json` archive passes exactly when it names an image and holds every file it names. |
| `ImageArchive.ChainsAreShort` | appliance/scripts/verify-image-archive.py:78-79 | An archive that passes has no chain of more than five descriptors. |
| `ImageArchive.CyclicIsRefused` | appliance/scripts/verify-image-archive.py:78-79 | An archive in which a chain comes back to a descriptor is refused. |
| `ImageArchive.OtherPlatformsAreRefused` | appliance/scripts/verify-image-archive.py:82-89 | An index none of whose entries has both the operating system and the architecture asked for is refused. |
| `ImageArchive.FollowedIff` | appliance/scripts/verify-image-archive.py:82-94 | Of an index exactly the entries with that operating system and architecture are followed. |
| `ImageArchive.IndexIff` | appliance/scripts/verify-image-archive.py:77-78 | A document that lists manifests is an index; otherwise the descriptor's media type tells, or the document's where the descriptor gives none. |
| `ImageArchive.NestedIff` | appliance/scripts/verify-image-archive.py:78-95 | Up to four indexes above a complete manifest pass, at any starting depth that leaves room for them; one more is too deep. |
| `ImageArchive.BlobOf` | appliance/scripts/verify-image-archive.py:35-37 | A digest is looked up under its algorithm and its digits. |
| `MigrationHeads.HeadsAt` | scripts/release_schema_heads.py:88-107 | The heads, in sorted order and each once, are exactly the revisions that no file with a revision refers to. |
| `MigrationHeads.SameFilesSameHeads` | scripts/release_schema_heads.py:88-107 | They depend only on which files there are, not on the order or number of readings. |
| `MigrationHeads.EveryRevisionHasAHead` | scripts/release_schema_heads.py:88-107 | In an acyclic set of migrations every revision is below a head, or is one. |
| `MigrationHeads.Build` | scripts/release_schema_heads.py:110-120 | A tag is in the table exactly when its tree has one head, and that head is recorded. |
| `MigrationHeads.RecordedHeadIsAboveAll` | scripts/release_schema_heads.py:110-120 | The head recorded for an acyclic tree has every revision of that tree below it. |
| `ReleaseTags.OneSpelling` | scripts/release_version.py:34-49 | All accepted names of one release are one name up to the script of their digits; in ASCII there is only one. |
| `ReleaseTags.AsciiSpelling` | scripts/release_version.py:84-100 | Every accepted name has an ASCII spelling, accepted as the same release. |
| `ReleaseTags.ReleaseTotal` | backend/app/core/versions.py:28-48 | Releases are totally ordered: CalVer below SemVer, SemVer by section 11 of SemVer 2.0.0. |
| `ReleaseTags.ReleaseTransitive` | backend/app/core/versions.py:28-48 | The order is transitive. |
| `ReleaseTags.IdentsLessIff` | backend/app/core/versions.py:42-48 | Section 11 of SemVer 2.0.0: the first identifiers that differ decide, numeric ones numerically and below alphanumeric ones; without a difference the longer list is higher. |
| `ReleaseOrder.LessIff` | backend/app/core/versions.py:35-46 | A release is below another exactly when its scheme, or the first number that differs, is smaller, CalVer first and a pre-release before its release; or, for pre-releases of one version, when its identifiers are lower by section 11 of SemVer 2.0.0. |
| `ReleaseOrder.SemVerIsAbove` | backend/app/core/versions.py:3-5 | Every SemVer release is above every calendar one. |
| `ReleaseOrder.DateIff` | backend/app/core/versions.py:58-62 | A calendar tag names a day of the Gregorian calendar, years 1 to 9999. |
| `ReleaseOrder.NameIff` | scripts/release_version.py:84-104 | An ASCII name is the tag of a release exactly when it is how that release is written: a padded date and N from 1 on, or a version from 1.0.0 to 999 with its pre-release. |
| `ReleaseTags.TagsMeaning` | scripts/release_version.py:103-104 | The tags of a list of lines are what its lines parse to. |
| `ReleaseTags.Previous` | scripts/release_version.py:107-120 | None exactly when no eligible tag is older; otherwise an eligible older tag that no other one exceeds. |
| `ReleaseTags.HistoryVisitsAll` | scripts/release_version.py:107-120 | Following `previous` from a final release visits exactly the older final releases, each once, in strictly descending order, and stops. |
| `ReleaseTags.OneNewest` | scripts/release_version.py:123-132 | When there is a final release, `is_newest` holds of exactly one tag. |
| `ReleaseOrder.PreviousMeaning` | scripts/release_version.py:107-120 | The release before is a highest one below that may precede it, which a pre-release may only for a pre-release; none exactly when there is none. |
| `ReleaseOrder.NewestIff` | scripts/release_version.py:123-132 | The newest is a final release that no final release is above. |
| `ReleaseOrder.NoDateIsNewest` | scripts/release_version.py:123-132 | Once a final SemVer tag is there no calendar tag is the newest. |
| `ReleaseOrder.BeforeFirstSemVer` | scripts/release_version.py:107-120 | The release before the first final SemVer one is the highest calendar tag, none without one. |
| `ReleaseTags.ChartIsSemVerIff` | scripts/release_version.py:155-166 | An accepted tag gets a chart version of strict SemVer exactly when it is a calendar tag or its digits are ASCII; that of an ASCII SemVer tag is the tag. |
| `ReleaseTags.FullWidthMinor` | scripts/release_version.py:44-54 | A SemVer tag with one full-width digit is accepted and published as a chart version that is no SemVer. |
| `ReleaseTags.CalVerChart` | scripts/release_version.py:158-161 | A calendar chart is the pre-release N of the date. |
| `ReleaseTags.CalVerChartsInOrder` | scripts/release_version.py:155-171 | By section 11 of SemVer 2.0.0 calendar charts are ordered as their tags are. |
| `ReleaseTags.OneTagPerChartIff` | scripts/release_version.py:155-171 | No two accepted tags with years from a given one on share a chart version exactly when that year is at least 1000 and the tags are ASCII (or no year is left). |
| `ReleaseTags.FullWidthYear` | scripts/release_version.py:155-171 | Every calendar tag, its year's first digit typed full width, is accepted as the same release and published as the same chart. |
| `ReleaseTags.ChangelogSection` | scripts/release_version.py:135-152 | The body returned is what stands between the first heading of exactly that version and the next heading; empty when there is none. |
| `ReleaseTags.OtherVersionIsNoHeading` | scripts/release_version.py:135-142 | The heading of a version that starts with another version is none of that one's. |
| `DockerStages.Stages` | scripts/lint_image_upgrades.py:67-79 | Every line after the first FROM is in exactly one stage, in order, with names and bases lowered, whatever lowering does. |
| `DockerStages.ByName` | scripts/lint_image_upgrades.py:97 | A name stands for the last stage that has it. |
| `DockerStages.ParentIff` | scripts/lint_image_upgrades.py:97-113 | A stage is built from the last stage that its base names, or from an outside image. |
| `DockerStages.Ancestry` | scripts/lint_image_upgrades.py:108-116 | The walk up ends on every file, cyclic and self-referring names included, with a chain that has no stage twice. |
| `DockerStages.ChainIsAllAncestors` | scripts/lint_image_upgrades.py:82-94 | The chain is the target and its FROM ancestors, all of them and nothing else. |
| `DockerStages.ChainIsUnique` | scripts/lint_image_upgrades.py:108-116 | There is one such chain, root first. |
| `DockerStages.ShippedBody` | scripts/lint_image_upgrades.py:82-117 | The text is that of the chain of the stage named by the lower-cased target; empty without stages, an error for an unknown target. |
| `DockerStages.TargetIff` | scripts/lint_image_upgrades.py:99-106 | Published is the last stage of the name asked for, or the last stage when none is. |
| `DockerStages.BodiesAre` | scripts/lint_image_upgrades.py:117 | The text is that of each stage of the chain, in order. |
| `DockerStages.StripTrailingComment` | scripts/lint_image_upgrades.py:134-156 | What is left is the part before the first comment start outside quotes, as told by the quoting of each prefix of the line. |
| `DockerQuotes.OutsideIff` | scripts/lint_image_upgrades.py:142-155 | The scanner is outside quotes exactly where what it has read is bare characters and closed strings, with backslashes only in double quotes. |
| `DockerQuotes.CodeIs` | scripts/lint_image_upgrades.py:134-156 | So the code of a line is what is before its first hash that starts it or stands behind a space, ahead of which every string is closed. |
| `DockerStages.CodeIsCode` | scripts/lint_image_upgrades.py:134-156 | Stripping a stripped line changes nothing. |
| `DockerStages.StripComments` | scripts/lint_image_upgrades.py:159-171 | Whole-line comments are dropped and the others cut, line by line. |
| `DockerQuotes.UncommentedOne` | scripts/lint_image_upgrades.py:168-170 | A line is dropped exactly when its first character that is no space is a hash. |
| `DockerQuotes.UncommentedSum` | scripts/lint_image_upgrades.py:167-171 | The other lines stay, in order. |
| `DockerStages.StrippedStaysStripped` | scripts/lint_image_upgrades.py:159-171 | Stripped lines stay as they are. |
| `TaskContext.Worker.BindTaskRequestId` | backend/app/celery_app.py:1389-1402 | Binding replaces both variables and files what it replaced under the id, if there is one. |
| `TaskContext.Worker.UnbindTaskRequestId` | backend/app/celery_app.py:1405-1416 | Unbinding puts back what the id's binding replaced and forgets its token; without a token it does nothing. |
| `TaskContext.Worker.Deliver` | backend/app/celery_app.py:1389-1416 | The handlers run over any list of events. |
| `TaskContext.TasksLeave` | backend/app/celery_app.py:1389-1416 | What any nesting of tasks leaves, from any state: the tokens of none of their ids, and the context before them or the one the last outermost task that is not undone left. |
| `TaskContext.ContextIsRestored` | backend/app/celery_app.py:1405-1416 | When every outermost task has an id that no task inside it uses, the context is as before and their tokens are gone, whatever the tasks inside do. |
| `TaskContext.BoundWhileRunning` | backend/app/celery_app.py:1389-1402 | While a task runs its own id and name are bound, also behind tasks inside it that were undone. |
| `TaskContext.ContextIsRestoredIff` | backend/app/celery_app.py:1405-1416 | For any nesting of tasks the context is given back, whatever it was, exactly when every outermost task has an id that no task inside it uses. |
| `TaskContext.NothingIsLeftIff` | backend/app/celery_app.py:1384-1386 | For any nesting and any state, context and tokens are both as before exactly when no task had the id of an active one and the context left over, if any, equals the one before. |
| `TaskContext.OneTaskIff` | backend/app/celery_app.py:1389-1416 | One task, with anything inside it: all is as before exactly when none of the ids was active and the task's id is given and not used again inside, or what is left happens to be what was. |
| `TaskContext.ReusedIdLeaks` | backend/app/celery_app.py:1405-1416 | A task inside another of its id takes that one's token, and the outer binding stays. |
| `TaskContext.MissingIdLeaks` | backend/app/celery_app.py:1389-1416 | A task without an id leaves its binding; inside a task with one, that is undone. |
| `PathLabels.PrefixIsFound` | backend/app/metrics.py:105-120 | Of a path filled from prefix and route templates the route's pattern leaves exactly the filled prefix. |
| `PathLabels.ByValueMeaning` | backend/app/metrics.py:128-133 | A value stands for a parameter that has it and that the route does not own; every such value that is not empty stands for one. |
| `PathLabels.LastParamWins` | backend/app/metrics.py:129-134 | A value that several parameters hold stands for the last of them. |
| `PathLabels.LabelWithoutPrefix` | backend/app/metrics.py:95-101 | Without a route, or with an empty template, there is one label for all; a path that ends with nothing the template matches gets the template alone. |
| `PathLabels.SegmentsComeBackIff` | backend/app/metrics.py:123-138 | The segments of the prefix template come back exactly when the values tell them apart. |
| `PathLabels.RoundTripIff` | backend/app/metrics.py:72-102 | Filling the templates and labelling the path gives prefix template + route template exactly when no two parameters of the prefix share a value and no literal segment of it equals one. |
| `PathLabels.SharedValueFails` | backend/app/metrics.py:123-138 | Two prefix parameters with one value: the label is not the template, for all names and values. |
| `LintBaseline.Listing` | scripts/lint_migrations.py:302 | The lines written are those of the findings, sorted, each once. |
| `LintBaseline.WriteBaseline` | scripts/lint_migrations.py:300-311 | The file is the comment header and that listing. |
| `LintBaseline.LoadBaseline` | scripts/lint_migrations.py:279-297 | The entries are what the file's lines read as, in order; none without a file. |
| `LintBaseline.MatchesBaseline` | scripts/lint_migrations.py:314-320 | True exactly when some entry has the path and rule within five lines. |
| `LintBaseline.SplitOfUnlines` | scripts/lint_migrations.py:283 | Lines without line breaks come back when written one a line. |
| `LintBaseline.LineReadsBack` | scripts/lint_migrations.py:286-296 | A recordable finding's line is read as that finding, colons in its path included. |
| `LintBaseline.EntriesOfMeaning` | scripts/lint_migrations.py:279-297 | A recordable finding's line reads as that finding alone; any other one never as itself. |
| `LintBaseline.FileReads` | scripts/lint_migrations.py:279-311 | The entries of a file are those of its header and those of each finding's own line, also where a line breaks into several. |
| `LintBaseline.OwnEntryIff` | scripts/lint_migrations.py:279-311 | In any baseline, whatever else it holds, a finding is read back exactly when path and rule have no line break, the path no leading space or hash, and the rule no colon. |
| `LintBaseline.BaselineReadsBack` | scripts/lint_migrations.py:279-311 | A baseline is read back as what the lines of its findings read as; when all are recordable, as one entry a finding and nothing else. |
| `LintBaseline.KnownIff` | scripts/lint_migrations.py:314-320 | A finding is known to a baseline exactly when a recordable one in it has its path and rule within five lines, or the line of one that is not recordable reads as such an entry. |
| `LintBaseline.LostFindings` | scripts/lint_migrations.py:279-311 | A path that starts with a hash and a rule that holds a colon are lost from every baseline. |

## Left out

- MeaningPreserved: does not cover unions, FULL OUTER JOIN, GROUP BY, HAVING, ORDER BY and LIMIT, which the query model does not have (the rows being the same in order and number, a LIMIT on the outermost SELECT takes the same ones), nor the shapes the source itself excludes: joined Core tables, `text()`, raw `execute`.
- FilterSoftDeleted: that the walk or the rewriting raises is an input; where there is something to rewrite, a filter that could not rewrite it leaves WHERE-only FROMs unguarded, as the source says. Compound SELECTs, which the hook receives too, are not covered: where SQLAlchemy puts loader criteria in the arms of one is nowhere stated in the source.
- BoundKeptIff: requires lists no longer than `sys.maxsize`, Python's own limit, so that a note fits the 200 bytes reserved for it.
- RecordedHeadIsAboveAll: requires an acyclic tree, which Alembic demands of its users and the script does not check.
- RoundTripIff: route parameters match one segment, as the default convertor does; the `path` convertor and typed convertors are not modelled, nor a parameter name used both in the prefix and in the route.
- Rounding: durations, probe times and weights are real numbers, not floats.
- Characters: `\d` and `int` take the decimal digits of Unicode 15.0; `\w` is exact up to U+058F, in U+2000-2BFF, U+2E00-33FF and U+FDFC-FFFF and for pictographs, and elsewhere takes every visible character for a letter, combining marks and symbols of single scripts included; lone surrogates do not exist; the `lower()` of Dockerfile names is a parameter, of which nothing is assumed.
- Texts: the changelog, the release notes and Dockerfiles are lists of lines; only the lint baseline models `splitlines` on characters.
- JSON of an unexpected type in an image archive (a list where an object is due): the source raises, the model has no such value.
- The wording of the lint baseline's header is a parameter.
- The order of fragments: the fold takes them as given; `scan` (`scripts/changelog_assemble.py:94-125`), its directory checks and its sort by issue are not modelled.
- Dict order in `render_markdown`: the measured sources are given in sorted order. `diff_registry` and `check_source` are not modelled; they would add only case splits.
- The probe's clock going back, and a state file that cannot be read or holds no number.
- `wall_report` and the warning for a test in two shards: printing only.
- Everything else in these files: fetching, git, tar and file access, argument parsing, exit codes and printing; the audit hook, engines and pools of `backend/app/db.py`; schedules and routes of `backend/app/celery_app.py`; counters of `backend/app/metrics.py`.
