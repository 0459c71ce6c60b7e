# Models and proofs of the desktop and infrastructure core

A Dafny 4.11 model of the parts of this repository whose behaviour is decided by careful text editing,
indentation parsing, or a protocol over durable state, with proofs of the laws they are meant to keep.
`dafny verify dfyconfig.toml` checks the whole project.

| Cluster | Source | Modules |
|---|---|---|
| Legacy YAML printer and parser | `tools/release/simple_yaml.py` | `Quoting`, `SimpleYaml*` |
| Byte-preserving `config.yaml` edits | `apps/work/src/main/agent-config-providers.ts` | `Config*`, `Providers*`, `CustomProviders*` |
| Auxiliary model fields | `apps/work/src/main/auxiliary-config.ts`, `yaml-path.ts` | `YamlPaths*`, `Auxiliary*` |
| Legacy toolset repair | `apps/work/src/main/config-health.ts` | `Toolsets*` |
| Cloud agent sync | `apps/work/src/main/agent-sync.ts` | `Sync*` |
| Ownership handover | `infra/salt/client/handover.py` | `Handover*` |
| Chat transcript writer | `apps/work/src/main/chat-session-materialize.ts` | `Transcript*` |
| Loopback web socket relay | `apps/work/src/main/dashboard-websocket-relay.ts` | `Relay*` |

Every cluster has three layers. Functions and datatypes say what the code computes on values; regular
expressions are spelled out as functions over characters. Lemmas prove the laws about those functions.
Imperative modules (`SimpleYamlLoops`, `CustomProvidersFile`, `ProvidersFile`, `Auxiliary`, `Toolsets`,
`SyncLoops`, `HandoverMachine`, `TranscriptStore`, `RelayServer`) hold the loops, classes and in-place
updates of the source, each proved to compute the function the laws are about.

Text is `seq<char>`. White space, line terminators and line boundaries follow the host language: Python's
`str.strip` and `str.splitlines` in the YAML tooling, ECMAScript's `\s`, `.` and `trim` in the desktop.
Files are whole values replaced at once; the cloud and the session database are maps and row lists;
SHA-256 is an injective function. Clocks, hooks, request outcomes, generated names and failures are
parameters, so the theorems hold for every choice of them.

## What the proofs found

* A list that holds a filled map or list does not survive `dump_yaml`: the bare `-` line is not an item.
  Keys are printed raw, so one that looks like a comment or an item, or holds a colon, is lost as well, and so
  is a string that ends in a no-break space, because the quoting rule looks for an ordinary space only
  (`NoBreakSpaceIsLost`). `DumpThenLoadIff` shows there is no other obstacle.
* Of documents written by hand the loader reads keys, lists and items that open a mapping behind the dash as they
  are meant (`WrittenIsRead`). But a filled value for the key behind a dash is refused
  (`BlockBehindDashIsRefused`), a list in a list is read as one flat list (`DeeperDashesAreFlat`), and what
  follows at the margin in the other kind is dropped without an error (`MixedDocumentIsCut`).
* `upsertAgentCustomProviderModel` never writes a changed URL or key for a known model: the fields are
  assigned before they are compared, so the branch that would write is dead.
* A comment at the margin inside `custom_providers:` ends the span that is rewritten, but not the list that is
  parsed: the next upsert lists the entries behind it twice (`MarginCommentRepeats`). In a list that is indented,
  fields behind a `models:` map are not read (`WrittenIsListed`).
* Removing the first `providers:` entry can change how the following ones are read, because the block's
  indent is taken from its first key. `RemovalLosesOnlyIff` gives the exact condition.
* `setAuxiliaryField` escapes double quotes, but the reader stops at the first one. A set is also not read back
  where the reader reaches the key above the line that is written: on a line the setter's pattern passes over,
  such as `provider : x`, or in a block the setter does not recognise (a comment behind `auxiliary:`, or
  carriage returns), where the first set appends a block of its own. `GetPutIff` gives the condition for every
  file, and `OtherReads` what a set makes of every other read.
* The reader of key paths keeps frames for matched keys only, so a key below another key is read for a path that the
  file does not hold (`DeeperNamesakeIsRead`); `ReadsWhatIsNamed` says when the path is resolved as it says.
* Text that is put in behind the last line of a file without a final line feed is glued to that line. The first
  new field is lost in the entry's header (`OpenHeaderLosesUrl`). The header of a new `providers:` entry is lost
  in the last line, and the entry that stands there takes the new fields: it shows the new name, URL and key in
  place of its own, and removing the new provider by its key deletes it (`OpenBodyTakesNeighbour`). Without a
  key every further upsert writes the lines again (`OpenBodyKeepsGrowing`). `GetAfterAppendIff`,
  `GetAfterUpdateIff`, `UndoIff`, `RepeatUpdateIff` and `RepeatAppendIff` give the exact conditions;
  in a file that ends with a line feed only the input decides (`ClosedFileLaws`).
* What is indented behind `providers: {}` is read into the block that takes its place
  (`GetAfterNewBlockIff`).
* A pull that the device does not write (an empty remote model, a malformed colour) still advances the
  base, so the next pass reverts the cloud's edit (`RefusedPullIsReverted`). After a push that took effect
  while its answer was lost, setting a part back to what it was is always undone, and any other edit is lost
  unless it looks newer than the cloud (`LostAnswerKeepsEditIff`). A profile whose creation took effect
  without an answer is found again by its name, but one with more than 80 characters is backed up a second time
  (`LostBackupIsFoundIff`).
* Between its two writes a rollback can leave a completion marker without salt ownership (`GapIsUnsafeIff`),
  and a second migration overwrites the way back to the first owner as soon as it has written its snapshot,
  whether it succeeds or not (`FirstOwnerComesBackIff`).
* The relay's listener stays open without any timer exactly when the web socket server refuses the client's
  own upgrade after the target has opened (`StuckIff`).
* A NUL in the session, the question or the answer lets two chat turns share their ids (`KeyTellsTurnIff`,
  `NulsMixTurnsUp`). The title a turn reports is trimmed, the one its session keeps is not
  (`ReportedTitleIsStoredIff`).

## Model

| member | source | states |
|---|---|---|
| `Quoting.TwoPassInvertsEscape` | tools/release/simple_yaml.py:89-91 | for every string, the two sequential replacements of the tooling's reader undo the two-pass backslash-then-quote escape |
| `Quoting.OnePassInvertsEscape` | apps/work/src/main/agent-config-providers.ts:52-58 | for every string, the desktop's single left-to-right unescape undoes the same escape |
| `ConfigScalars.StripInvertsQuote` | apps/work/src/main/agent-config-providers.ts:52-64 | a quoted scalar reads back as the original string for every string, any padding before it and any text after the closing quote, comments included |
| `ConfigScalarForms.SingleQuotedIsRead` | apps/work/src/main/agent-config-providers.ts:59-60 | every text in single quotes, its own quotes doubled, is read back, whatever stands before it and behind it short of another quote |
| `ConfigScalarForms.PlainIsRead` | apps/work/src/main/agent-config-providers.ts:61-64 | a text without padding, outer quotes or a comment inside is read as it stands, between any padding and any comment |
| `ConfigHeaders.HeaderIff` | apps/work/src/main/agent-config-providers.ts:99-100 | a header is exactly the key, a colon between white space of the line, a comment or nothing, and the end of the line |
| `ConfigHeaders.FoundIff` | apps/work/src/main/agent-config-providers.ts:99-101 | the header found is the first of the text at the start of a line, and only if it stands at the beginning or behind a line feed |
| `SimpleYamlScalars.IntRoundTrip` | tools/release/simple_yaml.py:84-85 | every integer prints as a text that parses to that integer, has no padding and no colon |
| `SimpleYamlScalars.IntTextIsFloatText` | tools/release/simple_yaml.py:116-120 | whatever `int` accepts `float` accepts too, so the float test of the quoting rule protects every number-like string |
| `SimpleYamlScalars.ScalarRoundTrip` | tools/release/simple_yaml.py:75-92 | null, booleans, integers and strings that keep their padding come back from their printed form |
| `SimpleYamlScalars.StringSurvivesIffPaddingKept` | tools/release/simple_yaml.py:95-120 | a string survives print, strip and parse if and only if it is quoted or has no padding |
| `SimpleYamlScalars.NoBreakSpaceIsLost` | tools/release/simple_yaml.py:95-121 | every word that is printed unquoted comes back without a no-break space put behind it |
| `SimpleYaml.ParseBlock` | tools/release/simple_yaml.py:144-159 | terminates on every line list, and an answer's next index lies between the given index and the end |
| `SimpleYaml.ParseMap` | tools/release/simple_yaml.py:162-188 | the same for the mapping loop, through its mutual recursion with blocks |
| `SimpleYaml.ParseList` | tools/release/simple_yaml.py:191-217 | the same for the list loop and its map continuations |
| `SimpleYamlRoundTrip.PrintThenParse` | tools/release/simple_yaml.py:36-72 | parsing printed lines at any index of any text, at any enclosing indent and before any closing text, gives back the tree and consumes exactly those lines |
| `SimpleYamlRoundTrip.LoadInvertsDumpIffFlat` | tools/release/simple_yaml.py:65-68 | a container whose keys and scalars survive loads back from its lines if and only if no list in it holds a filled container |
| `SimpleYamlRoundTrip.NestedListIsLost` | tools/release/simple_yaml.py:65-68 | a list in a list is such a container and does not load back |
| `SimpleYamlText.DumpThenLoad` | tools/release/simple_yaml.py:17-33 | the same law on whole texts, through joining and Python's line splitting |
| `SimpleYamlExact.LoadedIsReadable` | tools/release/simple_yaml.py:17-23 | whatever the text, a loaded document has no padding and no colon in a key and no line boundary in a key or string |
| `SimpleYamlExact.DumpThenLoadIff` | tools/release/simple_yaml.py:17-72 | a container without floats loads back from its own dump if and only if every key and string survives by itself, none holds a line boundary, and no list holds a filled container |
| `SimpleYamlText.NoiseIsIgnored` | tools/release/simple_yaml.py:147-149 | any two line lists that agree on the lines that are not blank and not comments load to the same value or fail with the same error |
| `SimpleYamlText.InsertedNoiseIsIgnored` | tools/release/simple_yaml.py:164-168 | putting one blank or comment line anywhere changes neither the value nor the failure |
| `SimpleYamlWritten.WrittenIsRead` | tools/release/simple_yaml.py:144-225 | a document written by hand (keys in any order and repeated, keys without a value, any nesting, lists whose items open a mapping behind the dash) is read as what it means, at any place and indent and before any text that ends it, and exactly its lines are consumed: of a repeated key the last one counts, and all entries of a dash item make one mapping |
| `SimpleYamlWritten.WrittenIsLoaded` | tools/release/simple_yaml.py:17-23 | a whole text of such lines loads to what it means |
| `SimpleYamlWritten.LastCounts` | tools/release/simple_yaml.py:177-187 | in the meaning of a mapping a key has the value of its last entry |
| `SimpleYamlWritten.PackageIsLoaded` | tools/release/simple_yaml.py:206-225 | whatever the two texts are, a package written as a name behind the dash and a version on the next line keeps both |
| `SimpleYamlWritten.BlockBehindDashIsRefused` | tools/release/simple_yaml.py:171-172 | a filled value for the key behind a dash, at the indent its entries would have, refuses the document at its first line |
| `SimpleYamlWritten.NoBareItems` | tools/release/simple_yaml.py:200-205 | no line is ever read as an item with nothing behind its dash, so that branch of the list loop is dead |
| `SimpleYamlForms.WordsIff` | tools/release/simple_yaml.py:232-243 | null, the booleans and the two empty containers are read from exactly their words |
| `SimpleYamlForms.SingleQuotedIsRead` | tools/release/simple_yaml.py:243-247 | every text between single quotes is read as it stands |
| `SimpleYamlForms.GroupedIntIsRead` | tools/release/simple_yaml.py:248-253 | a sign, leading zeros and single underscores between digits make the integer that the digits stand for |
| `SimpleYamlForms.PointIsFloat` | tools/release/simple_yaml.py:248-251 | digits on both sides of a point make a float |
| `SimpleYamlForms.NumbersAreQuoted` | tools/release/simple_yaml.py:116-120 | a string that is an integer text, an infinity or a not-a-number is printed in quotes |
| `SimpleYamlForms.EmptyIff` | tools/release/simple_yaml.py:17-23 | a document is refused as empty exactly when no line means anything or the first that does is a null; one that begins with another scalar is that scalar |
| `SimpleYamlForms.ScalarBelowIsRead` | tools/release/simple_yaml.py:186-187 | the value of a key may stand deeper on the next line, where a null means an empty mapping |
| `SimpleYamlForms.DeeperDashesAreFlat` | tools/release/simple_yaml.py:191-217 | dashes at deeper indents go on with the same list |
| `SimpleYamlForms.MixedDocumentIsCut` | tools/release/simple_yaml.py:174-176 | a mapping at the margin followed by a list, or the other way round, loads as the first of the two |
| `SimpleYamlForms.ScalarAmongEntriesIsRefused` | tools/release/simple_yaml.py:177-178 | a scalar at the indent of the entries of a mapping refuses the document with its line |
| `SimpleYamlForms.QuotedItemIsScalar` | tools/release/simple_yaml.py:208-216 | an item in quotes is a scalar, whatever stands between them |
| `SimpleYamlForms.SplitsAtBreak` | tools/release/simple_yaml.py:17-19 | a text is split at each of ten line boundaries and nowhere else, a carriage return with a line feed counting once |
| `SimpleYamlLoops.LineBuffer.DumpValue` | tools/release/simple_yaml.py:36-72 | appends to the shared line list exactly the lines of the value and leaves what was there |
| `SimpleYamlLoops.LineBuffer.DumpEntries` | tools/release/simple_yaml.py:45-57 | the mapping loop appends the lines of all entries in sorted key order |
| `SimpleYamlLoops.LineBuffer.DumpItems` | tools/release/simple_yaml.py:65-71 | the list loop appends the lines of all items in order |
| `SimpleYamlLoops.ParseBlock` | tools/release/simple_yaml.py:144-159 | the index loop returns what the recursive reading returns |
| `SimpleYamlLoops.ParseMap` | tools/release/simple_yaml.py:162-188 | the mapping loop over a mutable index and result returns what the recursive reading returns |
| `SimpleYamlLoops.ParseList` | tools/release/simple_yaml.py:191-217 | the same for the list loop |
| `SimpleYamlLoops.DumpYaml` | tools/release/simple_yaml.py:26-33 | the dump method returns the text the round-trip law is about |
| `SimpleYamlLoops.LoadYaml` | tools/release/simple_yaml.py:17-23 | the load method returns the document, the parse error or the empty-file error the law is about |
| `CustomProvidersLines.ModelLineSurvivesIff` | apps/work/src/main/agent-config-providers.ts:499-516 | a rendered model line is read back as its id if and only if the id is in the scanner's alphabet and does not look like one of its keywords |
| `CustomProvidersRefinement.ParseInvertsRender` | apps/work/src/main/agent-config-providers.ts:532-552 | behind any text without the header, parsing the rendered block gives back every storable entry list |
| `CustomProvidersRuns.SpanOfRender` | apps/work/src/main/agent-config-providers.ts:555-575 | the span finder sees exactly the rendered block, from its header to the end |
| `CustomProvidersRuns.UpsertRefines` | apps/work/src/main/agent-config-providers.ts:609-671 | an upsert of entries is the upsert of the abstract map: one model added at the end, a known model changing nothing at all |
| `CustomProvidersRuns.RemovalRefines` | apps/work/src/main/agent-config-providers.ts:678-702 | a removal of entries deletes exactly one model from the map and promotes the next one |
| `CustomProvidersRuns.EditRefines` | apps/work/src/main/agent-config-providers.ts:577-599 | one edit of the text keeps the representation and commutes with the edit of the map |
| `CustomProvidersRuns.TextRefinesMap` | apps/work/src/main/agent-config-providers.ts:448-702 | from any text without the header, over every run of admissible edits, the file parses to the map the calls describe and still begins with the original text |
| `CustomProvidersWritten.WrittenIsListed` | apps/work/src/main/agent-config-providers.ts:448-530 | a list written by hand is parsed to what it says: of a repeated field the last value counts, models count once and in order, settings below a model and unknown fields do not count, nor do fields behind the models of an indented list, entries without a name or an endpoint are left out, and blank lines and comments make no difference |
| `CustomProvidersEdits.SameEndpointIff` | apps/work/src/main/agent-config-providers.ts:434-436 | two URLs name the same endpoint if and only if they differ at most in case, padding and final slashes |
| `CustomProvidersEdits.UpsertChangesOneEntry` | apps/work/src/main/agent-config-providers.ts:623-671 | in any list an upsert goes to the first entry of the name at the endpoint, else to the first of the name, else adds one; the entry gains the model and what was asked for, or nothing is written, and every other entry stays |
| `CustomProvidersEdits.RemovalChangesOneEntry` | apps/work/src/main/agent-config-providers.ts:682-702 | in any list a removal goes to the first entry of the name, at the endpoint if one is given; a first model gives its place to the next, and every other entry stays |
| `CustomProvidersRewrite.SpanOfWritten` | apps/work/src/main/agent-config-providers.ts:555-575 | the list goes from its key up to the first line at the margin that is no item |
| `CustomProvidersRewrite.EditsOfWritten` | apps/work/src/main/agent-config-providers.ts:577-702 | an upsert or a removal in a file with a list written by hand changes the list and nothing before or behind it |
| `CustomProvidersRewrite.RewrittenIsListed` | apps/work/src/main/agent-config-providers.ts:532-552 | the list written back, between any two texts, is parsed to the same entries, each without its own model among the further ones |
| `CustomProvidersRewrite.MarginCommentRepeats` | apps/work/src/main/agent-config-providers.ts:563-575 | after an upsert in a file with a comment at the margin inside the list, the entries behind the comment are listed twice |
| `CustomProvidersFile.ParseEntries` | apps/work/src/main/agent-config-providers.ts:448-530 | the scanning loop with its four mutable variables returns the parse the laws are about |
| `CustomProvidersFile.RenderBlock` | apps/work/src/main/agent-config-providers.ts:532-552 | the line-pushing loop renders the block the laws are about |
| `CustomProvidersFile.FindBlock` | apps/work/src/main/agent-config-providers.ts:555-575 | the offset loop returns the span the laws are about |
| `CustomProvidersFile.UpsertModel` | apps/work/src/main/agent-config-providers.ts:609-671 | the file after the method is the upserted text of the file before |
| `CustomProvidersFile.RemoveModel` | apps/work/src/main/agent-config-providers.ts:678-702 | the file after the method is the text with the model removed |
| `ProvidersLines.PatchedLineKind` | apps/work/src/main/agent-config-providers.ts:133-147 | exchanging the value span of any key line leaves a line with the same indent, key and value position, whose value is the new one |
| `ProvidersLines.HeadStays` | apps/work/src/main/agent-config-providers.ts:99-103 | whatever body follows the header of a block, the header is found at the same place |
| `ProvidersWritten.WrittenIsListed` | apps/work/src/main/agent-config-providers.ts:98-179 | a block written by hand is listed as it says: of a repeated field the last value counts, deeper keys, lists and comments do not, the URL goes by three names in order, and an entry without a name by its key |
| `ProvidersInputs.StoredIff` | apps/work/src/main/agent-config-providers.ts:209-212 | an upsert stores something if and only if the name and the URL are not blank and a key is given that is not blank, or none and the name has a letter or digit |
| `ProvidersInputs.PaddingIsIgnored` | apps/work/src/main/agent-config-providers.ts:209-215 | padding around name, URL and key makes no difference to the file |
| `ProvidersInputs.TargetIff` | apps/work/src/main/agent-config-providers.ts:245-248 | the entry an upsert or a removal goes to is the first listed with the key variable, and without one the first listed with the key |
| `ProvidersInputs.NoTargetIff` | apps/work/src/main/agent-config-providers.ts:245-248 | there is none if and only if neither the key variable nor the key is listed |
| `ProvidersInputs.FlowIsReplaced` | apps/work/src/main/agent-config-providers.ts:222-236 | the line of the empty flow form, with its comment and its end, gives its place to the new block, and every other character stays |
| `ProvidersScan.BlockUpToEnd` | apps/work/src/main/agent-config-providers.ts:107-158 | the recorded end of the body splits the lines into those that make the block and silent ones |
| `ProvidersScan.BlockFits` | apps/work/src/main/agent-config-providers.ts:141-148 | entries are disjoint and in order, every field span lies inside its entry on a line with that key and value, and fields stand deeper than entries |
| `ProvidersScan.InsertLine` | apps/work/src/main/agent-config-providers.ts:285-291 | a field line put after an entry's header adds that field to that entry and shifts everything else |
| `ProvidersScan.RevaluedScan` | apps/work/src/main/agent-config-providers.ts:278-284 | scanning commutes with exchanging the value of one key line |
| `ProvidersEdits.SplicesAreEdits` | apps/work/src/main/agent-config-providers.ts:294-298 | splicing back to front at offsets of the original text performs all line edits at once: no offset goes stale |
| `ProvidersOrder.SortCommutes` | apps/work/src/main/agent-config-providers.ts:294-294 | sorting the patches by start, stably and descending, is sorting the edits they come from |
| `ProvidersOrder.SortedDescends` | apps/work/src/main/agent-config-providers.ts:261-297 | in sorted order every patch lies before all patches already applied, and inserted lines come last |
| `ProvidersOrder.EditsSetFields` | apps/work/src/main/agent-config-providers.ts:276-299 | a list of well-placed edits sets exactly the fields it names, in the one entry it is about |
| `ProvidersLaws.UpsertUpdates` | apps/work/src/main/agent-config-providers.ts:247-299 | an upsert that finds its entry under a header line that ends performs its edits of the lines and sets exactly the wanted fields of that entry |
| `ProvidersFrame.UpsertChangesEntryOnly` | apps/work/src/main/agent-config-providers.ts:261-299 | for every file with a block and every stored input, line terminators included, an upsert into an entry leaves the text up to the entry header and behind the entry as it was, puts at most three field lines behind the header, and keeps every other line or exchanges the value span of a field it sets |
| `ProvidersLaws.GetAfterUpdate` | apps/work/src/main/agent-config-providers.ts:162-178 | after it, the listing shows the new name, URL (under whichever alias the entry uses) and key at that entry and everything else in its place |
| `ProvidersExact.GetAfterUpdateIff` | apps/work/src/main/agent-config-providers.ts:205-300 | for every file and every stored input: that is so if and only if the values hold no line terminator and the entry header line ends with a line feed |
| `ProvidersExact.OpenHeaderLosesUrl` | apps/work/src/main/agent-config-providers.ts:286-291 | a file that ends in an entry header without a line feed is one where it is not |
| `ProvidersExact.ListingIsListable` | apps/work/src/main/agent-config-providers.ts:162-178 | whatever the file, its listing shows keys for slugs and no line terminators |
| `ProvidersAppend.UpsertAppends` | apps/work/src/main/agent-config-providers.ts:252-259 | an upsert that finds no entry puts the rendered lines at the end of the body, and they are read as one more entry |
| `ProvidersAppend.GetAfterAppend` | apps/work/src/main/agent-config-providers.ts:162-178 | after it, the listing is the old one with the new provider last |
| `ProvidersExact.GetAfterAppendIff` | apps/work/src/main/agent-config-providers.ts:205-259 | for every file with a block: that is so if and only if the values hold no line terminator, the slug is a key, and the last line of the body ends with a line feed |
| `ProvidersExact.GluedKind` | apps/work/src/main/agent-config-providers.ts:113-123 | text glued to a line leaves it a key line with the same indent and key, or no key line |
| `ProvidersAppend.RemoveCutsLines` | apps/work/src/main/agent-config-providers.ts:304-322 | a removal takes out exactly the lines of the entry it finds |
| `ProvidersUndo.UndoIff` | apps/work/src/main/agent-config-providers.ts:252-322 | for every file with a block: appending an entry that can be read back and removing it again restores the file byte for byte if and only if the last line of the body ended with a line feed and the removal looks for the entry, by its key variable or else by its slug |
| `ProvidersFileEnds.OpenBodyTakesNeighbour` | apps/work/src/main/agent-config-providers.ts:252-322 | a file without a final line feed in which an append makes the last entry show the new name, URL and key, a second one is idle, and the removal deletes that entry |
| `ProvidersFileEnds.ClosedFileLaws` | apps/work/src/main/agent-config-providers.ts:205-322 | in a file that ends with a line feed the conditions are about the input alone: an update shows and settles if and only if its values hold no line terminator; an append shows if and only if moreover its slug is a key, then settles, and is undone by any removal that looks for it |
| `ProvidersNewBlock.GetAfterNewBlockIff` | apps/work/src/main/agent-config-providers.ts:218-245 | for every file without a block: the new provider is listed alone if and only if its values hold no line terminator, its slug is a key, there is no `providers:` line or the empty flow form stands behind a line feed and before any header, and what is indented behind that begins no entry and leaves name, URL and key; otherwise the block reads on in that text |
| `ProvidersNewBlock.NewBlockSettles` | apps/work/src/main/agent-config-providers.ts:218-245 | with only blank lines up to the next top-level key the provider is listed and a second upsert changes nothing |
| `ProvidersNewBlock.NoOpWithoutBlockIff` | apps/work/src/main/agent-config-providers.ts:218-245 | for every file without a block: an upsert leaves the text as it is if and only if there is a `providers:` line and none of the empty flow form |
| `ProvidersNoOp.NoOpIff` | apps/work/src/main/agent-config-providers.ts:274-299 | for every file with a block and every stored input: an upsert leaves the text as it is if and only if it finds an entry that shows the name, the URL under the alias it uses, and the key variable if there is one |
| `ProvidersIdempotent.RepeatIff` | apps/work/src/main/agent-config-providers.ts:205-300 | for every file and every stored input: a second, identical upsert changes nothing if and only if after the first one the entry found shows everything, or, where no block is found, no empty flow form is left |
| `ProvidersIdempotent.RepeatUpdateIff` | apps/work/src/main/agent-config-providers.ts:247-300 | for every file in which the entry is found: that is so if and only if the values hold no line terminator and the entry header line ended with a line feed |
| `ProvidersIdempotent.RepeatAppendIff` | apps/work/src/main/agent-config-providers.ts:205-259 | for every file with a block in which it is not found: that is so if and only if the values hold no line terminator, and either the slug is a key and the body's last line ended with a line feed, or the key variable finds the entry that took the new field lines and that entry shows them |
| `ProvidersNewBlock.RepeatNewBlockIff` | apps/work/src/main/agent-config-providers.ts:218-245 | for a file that gets its block: that is so if and only if the entry found in the new block, read on in the text behind it, shows everything |
| `ProvidersFileEnds.OpenBodyKeepsGrowing` | apps/work/src/main/agent-config-providers.ts:252-259 | a file without a final line feed in which the second upsert writes again |
| `ProvidersRemove.RemovalLosesOnlyIff` | apps/work/src/main/agent-config-providers.ts:302-322 | after a removal the listing loses only the entry found, if and only if that is not the first one or no entry behind the second is indented deeper than the second |
| `ProvidersExact.RemovalTakesMore` | apps/work/src/main/agent-config-providers.ts:302-322 | without the first of three entries, the second less indented than the others, the third is read as a field of the second |
| `ProvidersSlugs.SlugifyShape` | apps/work/src/main/agent-config-providers.ts:36-42 | every derived slug consists of lower-case letters, digits and single inner dashes |
| `ProvidersSlugs.SlugIsWords` | apps/work/src/main/agent-config-providers.ts:36-42 | the slug of a name is its words, runs of ASCII letters and digits in lower case, in order and with single dashes between them |
| `ProvidersSlugs.SameSlugIff` | apps/work/src/main/agent-config-providers.ts:36-42 | two names share a slug if and only if they have the same words, letters in either case |
| `ProvidersSlugs.SlugOfBrand` | apps/work/src/main/agent-config-providers.ts:36-42 | the slug of a name of two words |
| `ProvidersSlugs.DerivedSlugIsStored` | apps/work/src/main/agent-config-providers.ts:209-212 | a derived slug is always a key the scanner reads back, and a removal by the same name derives the same one |
| `ProvidersSlugs.AddThenRemoveByName` | apps/work/src/main/agent-config-providers.ts:205-322 | adding a provider by name and removing it by name leaves the file as it was if and only if the last line of the body ended with a line feed |
| `ProvidersFile.FindBlock` | apps/work/src/main/agent-config-providers.ts:98-159 | the loop over offsets and entry records returns the block of the line scan with every row replaced by its offset |
| `ProvidersFile.ListProviders` | apps/work/src/main/agent-config-providers.ts:162-178 | the listing loop returns the listing the laws are about |
| `ProvidersFile.FindEntry` | apps/work/src/main/agent-config-providers.ts:247-250 | the two searches return the first entry with the key variable, else the first with the slug |
| `ProvidersFile.CollectPatches` | apps/work/src/main/agent-config-providers.ts:274-292 | the patch loop collects exactly the patches of the edits |
| `ProvidersFile.Upsert` | apps/work/src/main/agent-config-providers.ts:205-300 | the file after the method is the upserted text of the file before |
| `ProvidersFile.Remove` | apps/work/src/main/agent-config-providers.ts:304-322 | the file after the method is the text without the entry |
| `YamlPaths.GetYamlPath` | apps/work/src/main/yaml-path.ts:25-73 | the loop over a stack of frames returns the value of the recursive walk |
| `YamlPaths.WalkIgnoresReturns` | apps/work/src/main/yaml-path.ts:29-29 | carriage returns before line feeds make no difference to any read |
| `YamlPathsWritten.ReadsTree` | apps/work/src/main/yaml-path.ts:25-73 | on every document written as a tree, keys quoted or not, with other lines, comments and blank lines between, the reader with its stack comes to what a search of the tree comes to |
| `YamlPathsWritten.ReadsWhatIsNamed` | apps/work/src/main/yaml-path.ts:44-71 | where the names of a path stand once and at their own levels only, the path is resolved as it says |
| `YamlPathsWritten.DeeperNamesakeIsRead` | apps/work/src/main/yaml-path.ts:63-71 | elsewhere a key below another key is read for a path that the file does not hold |
| `YamlPathsWritten.QuotedIsRead` | apps/work/src/main/yaml-path.ts:96-101 | between quotes the text up to the next such quote is read without its padding, whatever follows |
| `YamlPathsWritten.PlainIsRead` | apps/work/src/main/yaml-path.ts:102-106 | a text without quotes is read as it stands, between padding and a comment |
| `Auxiliary.SetAuxiliaryField` | apps/work/src/main/auxiliary-config.ts:65-137 | the index scans and the splice return the text the lens laws are about |
| `Auxiliary.ScanBody` | apps/work/src/main/auxiliary-config.ts:110-122 | the body loop finds the end of the task and the indent of its last line |
| `Auxiliary.SetAuxiliaryTask` | apps/work/src/main/auxiliary-config.ts:139-156 | an unknown slot is refused without a write; a known one gets its three fields set in order |
| `Auxiliary.ResetAuxiliaryToAuto` | apps/work/src/main/auxiliary-config.ts:158-168 | the reset loop applies all thirty-three sets |
| `Auxiliary.GetAuxiliaryConfig` | apps/work/src/main/auxiliary-config.ts:47-58 | one configuration per slot, read through the path reader with its defaults |
| `AuxiliaryBlocks.SetsInTask` | apps/work/src/main/auxiliary-config.ts:65-137 | in a block written by hand, a set of a task that is there gives the first field of the name its value, or puts the field in as the first line of the task, and leaves every other line of the file as it is |
| `AuxiliaryBlocks.SetsNewTask` | apps/work/src/main/auxiliary-config.ts:104-109 | a set of a task that is not there puts the task with the field in front of the others |
| `AuxiliaryBlocks.SetsNewBlock` | apps/work/src/main/auxiliary-config.ts:75-79 | without a block one is put behind the text on lines of its own |
| `AuxiliaryDefaults.ProviderIsAutoIff` | apps/work/src/main/auxiliary-config.ts:47-58 | a task reads as automatic if and only if its provider is missing, empty or `auto`, and without model or endpoint when they are missing |
| `AuxiliaryDefaults.UnmentionedTaskIsAuto` | apps/work/src/main/auxiliary-config.ts:47-58 | in a file that does not mention the block every task reads as automatic, without model and endpoint |
| `AuxiliaryDefaults.NamedTaskIsRead` | apps/work/src/main/auxiliary-config.ts:47-58 | a task that stands in its place once reads as its three values say |
| `AuxiliaryLines.ReadBackIff` | apps/work/src/main/yaml-path.ts:97-106 | a written value is read back as it was if and only if it has no double quote and no padding |
| `AuxiliaryTexts.PutPut` | apps/work/src/main/auxiliary-config.ts:65-137 | on every text, setting a field twice leaves what the second set alone would, for a first value of one line; a repeated set is a no-op |
| `AuxiliaryExact.PutPutIff` | apps/work/src/main/auxiliary-config.ts:65-137 | on every text and for all values: the second set leaves what it alone would if and only if the first value holds no line terminator |
| `AuxiliaryExact.GetPutIff` | apps/work/src/main/auxiliary-config.ts:65-137 | for every file: a set is read back as it was written if and only if the reader reaches the key above the written line and found that value there, or does not reach it there and the value has one line, no double quote and no padding |
| `AuxiliaryExact.HeaderGetPutIff` | apps/work/src/main/auxiliary-config.ts:81-136 | the same for the files with a header, where it depends on the lines before the written one, and a one-line value is otherwise read up to its first quote |
| `AuxiliaryExact.KeyAboveHidesPut` | apps/work/src/main/auxiliary-config.ts:124-132 | a file with a header in which the reader finds `provider : x`, which the setter passes over: whatever is set, x is read |
| `AuxiliaryReset.GetPut` | apps/work/src/main/auxiliary-config.ts:65-137 | in a regular file the reader never reaches the key above the written line, so only the value decides |
| `AuxiliaryReset.QuotedValueIsLost` | apps/work/src/main/auxiliary-config.ts:65-137 | a value with a double quote is read up to the backslash the setter puts before it |
| `AuxiliaryUnseen.UnseenBlockHidesPut` | apps/work/src/main/auxiliary-config.ts:73-79 | where the setter finds no block but the reader reaches the key, with a value or without, a set leaves that read as it was |
| `AuxiliaryUnseen.UnseenGetPutIff` | apps/work/src/main/auxiliary-config.ts:65-79 | for every file in which the setter finds no block: a set is read back if and only if the reader reached the key before and found that value, or did not reach it and the value survives |
| `AuxiliaryUnseen.ValuelessKeyHidesPut` | apps/work/src/main/auxiliary-config.ts:73-79 | a commented header with a key without a value is a file in which no set is ever read |
| `AuxiliaryExact.PutStaysInBlock` | apps/work/src/main/auxiliary-config.ts:81-136 | in every file with a header, a one-line value replaces one line or puts in at most two, all behind the header and before the end of its block |
| `AuxiliaryExact.OtherReads` | apps/work/src/main/auxiliary-config.ts:81-136 | for every file with a header, what a one-line set makes of every other field of every slot: the value set where the reader takes the written line for it, the reading under the new task line where the fields below come to stand under that, and the old reading in every other case |
| `AuxiliaryUnseen.UnseenOthersStay` | apps/work/src/main/auxiliary-config.ts:65-79 | for every file in which the setter finds no block, a one-line set changes no other field of any slot |
| `AuxiliaryReset.OthersStay` | apps/work/src/main/auxiliary-config.ts:81-136 | in a regular file a set changes no other field of any slot |
| `AuxiliaryReset.StaysRegular` | apps/work/src/main/auxiliary-config.ts:103-136 | a set leaves a regular file regular |
| `AuxiliaryFrame.PutKeepsRegular` | apps/work/src/main/auxiliary-config.ts:81-136 | on lines: the header stays where it is and the block keeps its two-space tasks and flat bodies |
| `AuxiliaryReset.TaskIsRead` | apps/work/src/main/auxiliary-config.ts:139-156 | after setting a task its configuration is exactly the one set and every other slot reads as before |
| `AuxiliaryReset.ResetLeavesAuto` | apps/work/src/main/auxiliary-config.ts:158-168 | after the reset every slot of a regular file reads automatic, with no model and no URL |
| `Toolsets.PatternsAgree` | apps/work/src/main/config-health.ts:972-1017 | the detector's capture is the legacy name if and only if the rewriter's pattern matches, for every line |
| `Toolsets.DetectsIffRewrites` | apps/work/src/main/config-health.ts:952-1028 | the detector fires exactly when the rewriter changes a line |
| `Toolsets.RewriteIsClean` | apps/work/src/main/config-health.ts:998-1028 | after the rewrite the detector never fires |
| `Toolsets.StateIsKept` | apps/work/src/main/config-health.ts:1003-1014 | before every line the in-block state is the same in the old and in the new file |
| `Toolsets.LinesDifferInName` | apps/work/src/main/config-health.ts:1017-1027 | every changed line is an entry of the block that differs only in the name |
| `Toolsets.FixSettles` | apps/work/src/main/config-health.ts:984-1037 | a fixed file is its own fix, and a file equals its fix exactly when nothing is detected |
| `ToolsetsEntries.RewrittenIff` | apps/work/src/main/config-health.ts:1002-1033 | a line is rewritten if and only if it is a dash, white space and the legacy name, bare or in quotes of one kind, with at most a comment behind it, and the last line above that begins with neither white space nor a dash is the key of the block |
| `ToolsetsEntries.RewrittenTo` | apps/work/src/main/config-health.ts:1020-1030 | it keeps its dash, white space, quotes and comment around the new name |
| `ToolsetsEntries.DetectsIff` | apps/work/src/main/config-health.ts:952-978 | the detector fires exactly for a file with such a line |
| `Toolsets.FindLegacyToolsetEntry` | apps/work/src/main/config-health.ts:952-976 | the detecting loop answers the predicate the laws are about |
| `Toolsets.FixLegacyToolsetName` | apps/work/src/main/config-health.ts:984-1050 | the fix succeeds exactly when an entry is detected, writes the rewritten text, and otherwise leaves the file; the detected-but-unchanged branch is never taken |
| `SyncParts.AbsentIffSkipped` | apps/work/src/main/agent-sync.ts:119-160 | a part of the push set is missing from the body if and only if it counts as skipped |
| `SyncParts.ReadUndoesPush` | apps/work/src/main/agent-sync.ts:258-265 | reading an agent back after a push gives the local value of each pushed part and the old value of every other |
| `SyncParts.ReconcileMovesEachPart` | apps/work/src/main/agent-sync.ts:497-564 | the reconciliation of a pair moves each part by the three-way rule on its own values |
| `SyncRuns.DonePassSyncsIff` | apps/work/src/main/agent-sync.ts:498-564 | an answered pass leaves a part in sync if and only if it was no skipped push and no pull the device refuses to write |
| `SyncRuns.PendingStaysPending` | apps/work/src/main/agent-sync.ts:547-557 | a skipped or refused push leaves local, remote and base of its part alone, so the part is pushed again |
| `SyncRuns.QuiescentInSync` | apps/work/src/main/agent-sync.ts:98-111 | with all parts in sync a pass pushes, pulls and changes nothing |
| `SyncRuns.OnePassConverges` | apps/work/src/main/agent-sync.ts:496-585 | one answered, unobstructed pass makes both sides equal on all four parts, and the next pass is idle |
| `SyncRuns.LocalEditSurvives` | apps/work/src/main/agent-sync.ts:98-111 | from sync, over any run in which only the device moves a part and no push takes effect unseen, the next answered pass puts the last local edit on both sides whatever the timestamps |
| `SyncRuns.RemoteEditSurvives` | apps/work/src/main/agent-sync.ts:98-111 | the same for edits in the cloud, even over lost answers |
| `SyncRuns.BaseIsCommonGround` | apps/work/src/main/agent-sync.ts:547-564 | over every run of edits and passes a recorded base is a value both sides once held together, or one that was pulled and that the device did not write |
| `SyncLosses.LocalEditSurvivesIff` | apps/work/src/main/agent-sync.ts:98-111 | over every run in which only the device moves a part, lost answers included, the next answered and unskipped pass puts the last local edit on both sides if and only if no pass behind that edit pulls |
| `SyncLosses.LostAnswerKeepsEditIff` | apps/work/src/main/agent-sync.ts:527-557 | after a push that took effect while its answer was lost, the last of any edits reaches both sides if and only if it repeats the pushed value, or differs from the base and looks newer than the cloud |
| `SyncLosses.SettingBackIsUndone` | apps/work/src/main/agent-sync.ts:98-111 | a run in which a part is set back with the newest clock and loses |
| `SyncLosses.RefusedPullIsReverted` | apps/work/src/main/agent-sync.ts:332-342 | a pull the device does not write still advances the base, and the next pass pushes the old value back, unless the part is skipped |
| `SyncLinks.LinkedIsByName` | apps/work/src/main/agent-sync.ts:412-494 | after the two linking loops every link may be reconciled, claimed agents are exactly the linked ones, and left-over profiles have no state |
| `SyncLinks.EveryPassKeepsLinksApart` | apps/work/src/main/agent-sync.ts:374-671 | after every pass, whatever failed in it, no two profiles hold an eligible link to one agent, this account's links lead into its cloud, nothing is deleted there, and foreign profiles are untouched |
| `SyncLinks.CleanPassEndsInBijection` | apps/work/src/main/agent-sync.ts:496-668 | when no answer is lost and creations succeed, this account's links end in bijection with its agents, which are the old ones and one for each profile left over |
| `SyncConverges.UnhinderedPassConverges` | apps/work/src/main/agent-sync.ts:374-671 | when every request is answered well, nothing that must move is skipped or unwritable and the listing is current, a pass ends with every agent linked by some profile, and every link of this account equal on all four parts with the base saying so |
| `SyncConverges.BackupAgrees` | apps/work/src/main/agent-sync.ts:587-626 | a backed-up profile none of whose parts is skipped equals its new agent on every part, and nothing else changes |
| `SyncConverges.NewProfileAgrees` | apps/work/src/main/agent-sync.ts:636-661 | a profile made for an agent whose parts can all be written equals it on every part, and nothing else changes |
| `SyncIdle.AgreeingPairStays` | apps/work/src/main/agent-sync.ts:496-564 | a pair in agreement comes out of a reconciliation exactly as it went in, whatever the clocks and the network do |
| `SyncIdle.RestIsIdle` | apps/work/src/main/agent-sync.ts:374-671 | when every profile agrees with its agent or is not this account's to touch, and every agent has a profile, a pass leaves both stores as they are |
| `SyncIdle.SecondPassIsIdle` | apps/work/src/main/agent-sync.ts:374-671 | a second pass after an unhindered one, without edits between, pushes, pulls, links and creates nothing, whatever its clocks, order of profiles and network |
| `SyncIdle.UnlinkedIff` | apps/work/src/main/agent-sync.ts:421-472 | the first loop drops a stored link if and only if it is this account's and its agent is gone, and touches no other state |
| `SyncIdle.LeftOversHaveNoNamesake` | apps/work/src/main/agent-sync.ts:474-494 | after the second loop no profile left over shares its name with an unclaimed agent |
| `SyncIdle.NamedLinksAreProper` | apps/work/src/main/agent-sync.ts:474-494 | every link is the profile's stored one, or joins a profile without a state to an agent of its name |
| `SyncNames.NewAgentIsNamed` | apps/work/src/main/agent-sync.ts:592-598 | a backed-up agent is named by a prefix of the profile name, all of it up to 80 characters |
| `SyncNames.NamesAfterPass` | apps/work/src/main/agent-sync.ts:587-661 | a pass keeps every name there is, names a backed-up agent after its profile and a pulled profile after its agent, and leaves a profile whose creation is not confirmed as it was |
| `SyncNames.LinksRecordNames` | apps/work/src/main/agent-sync.ts:559-564 | if every link of the account records the name of its agent, so it does after a pass |
| `SyncNames.LinkedByName` | apps/work/src/main/agent-sync.ts:474-494 | a left-over profile whose name is no other left-over profile's and one unclaimed agent's is linked to that agent |
| `SyncNames.LostBackupIsFoundIff` | apps/work/src/main/agent-sync.ts:474-620 | after a creation that took effect while its answer was lost, the next pass links the profile to that agent by its name if and only if the name has at most 80 characters |
| `SyncRules.WhatIsSent` | apps/work/src/main/agent-sync.ts:119-160 | a push leaves out exactly a prompt of more than 20000 or a memory of more than 40000 characters and a configuration without a model |
| `SyncRules.WhatIsWritten` | apps/work/src/main/agent-sync.ts:317-343 | a pull leaves the cloud's value on the device unless it is no colour of six hexadecimal digits or a configuration without a model, and touches no other part |
| `SyncRules.NoProviderIsAuto` | apps/work/src/main/agent-sync.ts:236-265 | no provider counts as the provider `auto` on both sides |
| `SyncRules.ConflictGoesToLater` | apps/work/src/main/agent-sync.ts:98-111 | a part that moved on both sides goes to the side that moved later, to the cloud in a tie, a part without a time on the device counting as time zero |
| `SyncRules.OtherAccountsStay` | apps/work/src/main/agent-sync.ts:425-438 | a profile linked under another account comes out of a pass as it went in |
| `SyncRules.OwnAndUnownedLinksAreTaken` | apps/work/src/main/agent-sync.ts:439-442 | a link to a living agent is taken up if it is the account's own or was stored without an account |
| `SyncAccounts.PassIsMine` | apps/work/src/main/agent-sync.ts:421-472 | a pass writes states only in the signed-in account's name |
| `SyncAccounts.RunsKeepLinksApart` | apps/work/src/main/agent-sync.ts:374-671 | over every run of passes under any accounts, edits and deletions, links stay apart for each account |
| `SyncLoops.BuildPushBody` | apps/work/src/main/agent-sync.ts:119-160 | the loop fills the body with exactly the parts not skipped and reports exactly the skipped ones |
| `SyncLoops.DecideParts` | apps/work/src/main/agent-sync.ts:507-519 | the loop collects the parts to push and to pull |
| `SyncLoops.RecordBase` | apps/work/src/main/agent-sync.ts:550-557 | the loop records pulled, pushed-and-not-skipped and equal parts, and keeps the old base of the others |
| `SyncLoops.Stores.LinkStored` | apps/work/src/main/agent-sync.ts:421-472 | the first loop links, unlinks, skips or keeps each profile as the pass function says |
| `SyncLoops.Stores.LinkNames` | apps/work/src/main/agent-sync.ts:474-494 | the second loop, which strikes matched profiles out of the list it copied, links by name as the pass function says |
| `SyncLoops.Stores.ReconcileLinked` | apps/work/src/main/agent-sync.ts:496-585 | one turn changes both stores as the reconciliation function says, also when the request throws |
| `SyncLoops.Stores.BackUp` | apps/work/src/main/agent-sync.ts:587-634 | the backup loop creates agents and links as the pass function says |
| `SyncLoops.Stores.PullNew` | apps/work/src/main/agent-sync.ts:636-668 | the last loop creates profiles for unclaimed agents as the pass function says |
| `SyncLoops.Stores.RunSyncPass` | apps/work/src/main/agent-sync.ts:374-671 | the whole pass leaves both stores as the pass function the theorems are about |
| `HandoverSafety.MigrateAllOrNothing` | infra/salt/client/handover.py:121-210 | a migrate hands over to salt with marker and all nine steps, or leaves owner and marker as they were with a proper prefix of the steps |
| `HandoverSafety.StartIsGuarded` | infra/salt/client/handover.py:152-184 | the salt gateway start is only attempted after snapshot, gateway stop and runtime disable succeeded in that run |
| `HandoverSafety.RemigrateRefusedIff` | infra/salt/client/handover.py:266-278 | a remigrate is refused if and only if the marker says a first migration completed, and then touches nothing |
| `HandoverSafety.CrashThenRollbackRestoresOwnerIff` | infra/salt/client/handover.py:147-249 | from every durable state of a migrate, a rollback from the files alone brings the owner back if and only if the snapshot hook supplied no owner or the right one |
| `HandoverSafety.RollbackLeadsTo` | infra/salt/client/handover.py:147-249 | the owner a rollback leads to from each of those states |
| `HandoverSafety.NothingWrittenBeforeSnapshot` | infra/salt/client/handover.py:147-161 | before the snapshot is taken no file is written, and its own write leaves owner and marker alone |
| `HandoverSafety.RollbackResumes` | infra/salt/client/handover.py:213-249 | a rollback cut short is completed by the next one, to the same files |
| `HandoverSafety.FirstOwnerComesBackIff` | infra/salt/client/handover.py:156-249 | after a successful migration and a second one, however it ends, a rollback restores the first owner if and only if the second wrote no snapshot or one that leads to that owner |
| `HandoverSafety.FailedSecondMigrateForgets` | infra/salt/client/handover.py:156-165 | a second migration that stops at the old gateway forgets the runtime |
| `HandoverSafety.RunsStaySafe` | infra/salt/client/handover.py:121-296 | over every run of operations and crashes without a stop inside a rollback, a present marker implies the owner reads salt |
| `HandoverSafety.GapIsUnsafeIff` | infra/salt/client/handover.py:229-241 | stopping between the two writes of a rollback breaks that exactly when a marker stands and the rollback leads to another owner |
| `HandoverSafety.GapBehindMigrate` | infra/salt/client/handover.py:229-241 | a rollback cut short behind a first migration is such a stop |
| `HandoverSafety.MigrateThenRollback` | infra/salt/client/handover.py:213-249 | the rollback after any migrate gives the owner back and removes the marker |
| `HandoverMarkers.MigrateStopsAtFirstFailure` | infra/salt/client/handover.py:121-210 | a migrate calls the hooks in order up to the first that fails, and reports that failure and no other |
| `HandoverMarkers.SnapshotHolds` | infra/salt/client/handover.py:156-160 | the snapshot written holds owner, endpoint and home, each the hook's own where it gives one |
| `HandoverMarkers.MigrateMarks` | infra/salt/client/handover.py:191-202 | the marker of a successful migrate says completed, in the name of salt, with endpoint and home, and a failed one marks nothing |
| `HandoverMarkers.RemigrateMarks` | infra/salt/client/handover.py:279-296 | a successful remigrate adds its own status, operation and key to the marker |
| `HandoverMarkers.RemigrateNeedsRollback` | infra/salt/client/handover.py:191-278 | after every successful migrate a remigrate is refused in the name of salt and writes nothing, and after the rollback it no longer is |
| `HandoverMarkers.RemigrateMayRepeat` | infra/salt/client/handover.py:264-296 | after a successful remigrate the next one is not refused |
| `HandoverMarkers.RefusedIffPlain` | infra/salt/client/handover.py:121-296 | over every run of operations and crashes a remigrate is refused if and only if the last marker since the last rollback was written by a plain migrate, or by the one inside a remigrate that was cut before its own |
| `HandoverMarkers.RollbackTells` | infra/salt/client/handover.py:213-249 | which hooks a rollback calls and what it reports |
| `HandoverMarkers.StepsInOrder` | infra/salt/client/handover.py:121-210 | a migrate reports the steps in the order they were reached, all nine if and only if it succeeds |
| `HandoverMarkers.OwnerIsReadIff` | infra/salt/client/handover.py:51-59 | an owner is read if and only if the file names one of the three, in letters of either case and between white space |
| `HandoverMachine.Endpoint.Migrate` | infra/salt/client/handover.py:121-210 | the method's files, hook calls, written states and result are those of the function |
| `HandoverMachine.Endpoint.Rollback` | infra/salt/client/handover.py:213-249 | the same for rollback |
| `HandoverMachine.Endpoint.Remigrate` | infra/salt/client/handover.py:252-296 | the same for remigrate |
| `TranscriptLaws.CleanKeysTellTurnsApart` | apps/work/src/main/chat-session-materialize.ts:41-54 | the hashed text determines session, question and answer when neither session nor question holds a NUL |
| `TranscriptLaws.KeyTellsTurnIff` | apps/work/src/main/chat-session-materialize.ts:41-54 | a turn is the only one with its hashed text if and only if none of its three texts holds a NUL |
| `TranscriptLaws.NulsMixTurnsUp` | apps/work/src/main/chat-session-materialize.ts:46-48 | two turns with a NUL share their ids, and the second leaves a wrong answer under the first question |
| `TranscriptLaws.StoringATurn` | apps/work/src/main/chat-session-materialize.ts:115-209 | beside an active gateway row nothing is inserted, a stored turn adds no row, a new one adds exactly its pair; the stored count equals the active rows and other sessions are untouched |
| `TranscriptLaws.RunSound` | apps/work/src/main/chat-session-materialize.ts:167-198 | over every interleaving with gateway writes and deletions, materialized ids stay unique and questions and answers paired |
| `TranscriptLaws.FreshRunSound` | apps/work/src/main/chat-session-materialize.ts:167-198 | so it is over every run from a database without messages |
| `TranscriptLaws.RepeatAddsNoRow` | apps/work/src/main/chat-session-materialize.ts:178-198 | however often a stored turn comes again, and whatever happened in between short of deleting the session, it adds no row |
| `TranscriptLaws.RunFaithful` | apps/work/src/main/chat-session-materialize.ts:178-198 | over every run of NUL-free turns each stored row holds the words, role and session of its turn |
| `TranscriptTitles.TitleIs` | apps/work/src/main/expert/expert-session-materialize.ts:61-93 | a title that is not blank is kept; otherwise the title is the trimmed wish, or a fixed one for a blank wish, alone if and only if no other session has it, else with a separator and text taken from the session id behind it |
| `TranscriptTitles.SuffixIsEnd` | apps/work/src/main/expert/expert-session-materialize.ts:81 | the text taken from a session id is the end of it, behind the desktop prefix and at most eight characters long |
| `TranscriptTitles.TailsDiffer` | apps/work/src/main/expert/expert-session-materialize.ts:82-91 | the candidates for a title are all different |
| `TranscriptTitles.TitleIsFree` | apps/work/src/main/expert/expert-session-materialize.ts:77-93 | a new title is no other session's unless every candidate is taken |
| `TranscriptTitles.RowOfSession` | apps/work/src/main/chat-session-materialize.ts:132-144 | what the row of a session holds after a turn: its title, its first start, the last activity, its first profile and the count |
| `TranscriptTitles.ReportedTitleIsStoredIff` | apps/work/src/main/chat-session-materialize.ts:127-138 | the title reported is the one stored if and only if the session is new or its stored title has no padding |
| `TranscriptTitles.TitlesStayUniqueIff` | apps/work/src/main/expert/expert-session-materialize.ts:61-93 | titles stay unique over a turn if and only if the session has a title already or the resolved one is no other session's |
| `TranscriptRows.TurnIsWrittenIff` | apps/work/src/main/chat-session-materialize.ts:115-205 | a turn with something to read in question and answer, in a session without active rows of others, and not stored yet, is written as two counted rows at the end with its words, roles and ids; any other turn adds no row |
| `TranscriptRows.FreshRunInOrder` | apps/work/src/main/chat-session-materialize.ts:178-198 | over every run in which the writer's clock does not run backwards, each question stands before its answer |
| `TranscriptStore.StateDb.MaterializeChatSessionTurn` | apps/work/src/main/chat-session-materialize.ts:76-247 | the method returns nothing for empty turns, only caches when the database is missing or the transaction fails, and otherwise leaves exactly the stored database, result and cache row |
| `RelayLaws.RunIsValid` | apps/work/src/main/dashboard-websocket-relay.ts:69-151 | over every interleaving of callbacks the latches and timers stay consistent, an answer once given stands, and the listener and the promise settle once |
| `RelayLaws.EveryRun` | apps/work/src/main/dashboard-websocket-relay.ts:79-113 | from the start the server is closed at most once, an open listener whose client was not refused waits on a timer, and every answered request has closed it |
| `RelayLaws.StuckIff` | apps/work/src/main/dashboard-websocket-relay.ts:115-123 | an open listener has no timer left if and only if the client's upgrade was refused, and then only a server error closes it |
| `RelayLaws.RefusedClientLeavesListener` | apps/work/src/main/dashboard-websocket-relay.ts:115-123 | a run from the start that ends there |
| `RelayLaws.TimersClose` | apps/work/src/main/dashboard-websocket-relay.ts:102-147 | whichever timer is set, its firing closes the listener |
| `RelayLaws.OneRequest` | apps/work/src/main/dashboard-websocket-relay.ts:92-97 | over any run every upgrade request but the first with the secret path is answered 404, and one is accepted exactly when such a request came |
| `RelayRuns.RunComesTo` | apps/work/src/main/dashboard-websocket-relay.ts:69-151 | every run from the start comes to what its events say: the first report of the server settles the promise, the first event that ends the wait of the accepted client is its answer, the socket to the target lives as long as it should, and the listener is closed by the first event that has to |
| `RelayLaws.OnlyValidCodes` | apps/work/src/main/dashboard-websocket-relay.ts:24-52 | after any traffic over a bridge, no close frame either end was sent carries a code that section 7.4 of RFC 6455 reserves or leaves undefined |
| `RelayLaws.CodesArePassedOn` | apps/work/src/main/dashboard-websocket-relay.ts:24-52 | a code in a close frame is one the other end closed with |
| `RelayLaws.TargetIsTold` | apps/work/src/main/dashboard-websocket-relay.ts:24-52 | after any traffic the target is cut off if something cut it, and otherwise was told exactly what the renderer closed with first, with the code if it may be sent |
| `RelayLaws.RendererIsTold` | apps/work/src/main/dashboard-websocket-relay.ts:24-52 | the same towards the renderer |
| `RelayLaws.TargetGetsPrefix` | apps/work/src/main/dashboard-websocket-relay.ts:34-52 | the target receives what the renderer sent, in order and without gaps, up to where it stopped being open |
| `RelayLaws.RendererGetsPrefix` | apps/work/src/main/dashboard-websocket-relay.ts:34-52 | the same towards the renderer |
| `RelayServer.LoopbackRelay.OnUpgrade` | apps/work/src/main/dashboard-websocket-relay.ts:92-113 | the upgrade callback takes the machine's step |
| `RelayServer.LoopbackRelay.OnUpstreamOpen` | apps/work/src/main/dashboard-websocket-relay.ts:115-123 | the open callback takes the machine's step, for a client accepted or refused by the upgrade |
| `RelayServer.LoopbackRelay.OnSocketClose` | apps/work/src/main/dashboard-websocket-relay.ts:130-135 | the close callback takes the machine's step |
| `RelayServer.LoopbackRelay.FailTheHandshake` | apps/work/src/main/dashboard-websocket-relay.ts:102-108 | a failed handshake settles once, stops its timer, answers unless the socket is gone, and closes the listener |

## Left out

- The rest of the repository: user interface, drivers, packaging, enrollment and journal bookkeeping, which would add easy members only.
- Unicode decimal digits in `int()`/`float()`, integer texts beyond Python's digit limit, and floats as numbers: a float is its literal text.
- Error messages are kept as the offending line, not as formatted text.
- `_needs_quotes_pre_v216`, kept in the source for a regression check only.
- String lengths count code points, not UTF-16 units; lower-casing (`normUrl`, slugs, owners, the LIKE prefix) is ASCII only.
- A task or field name is matched literally; names with pattern characters, which no caller passes, are not modelled.
- `removeAgentCustomProviderEntry`, `listLegacyCustomProviders` and the first-party brand mirror of the providers file.
- The JSON text of the handover files and snapshots that cannot be parsed; hooks that raise; the stub-hook guard; restarting services after a failure.
- HTTP, file-system errors and the single-flight latch of the sync engine; the warnings and outcomes a pass reports.
- Store reads of a profile return what was last written, except that a malformed colour and an empty remote model write nothing.
- Session metadata, and database failures other than a rolled-back transaction, of the transcript writer.
- The HTTP bytes of a rejected upgrade and the framing of web socket messages.
- SyncIdle.SecondPassIsIdle: links to agents deleted in the console are excluded, because such a profile is unlinked in one pass and backed up anew in the next.
- ProvidersIdempotent.RepeatAppendIff: a slug with a line feed inside, which only an explicit slug can have, is left to `RepeatIff`, whose condition is about the file the first upsert leaves.
- ProvidersUndo.UndoIff: for entries the scanner can read back; values with line terminators and slugs that are no keys leave lines that can be read as anything.
- ProvidersNewBlock.RepeatNewBlockIff: likewise for such entries; the others are covered by `RepeatIff`.
- CustomProvidersRuns.TextRefinesMap: model ids are those the scanner can read back, which `ModelLineSurvivesIff` delimits exactly.
- SimpleYamlExact.DumpThenLoadIff: without floats, which are literal texts here and are not printed as they were read.
- In the sync model an HTTP error (`Refused`) never takes effect at the server; an error response to a write that did take effect is covered only as `Lost(true)`.
