# Multi-agent solver dashboard: event extraction, source analysis and conflict loop

This project models two pieces of logic from a multi-agent problem solver and
proves properties about them.

The first is the dashboard's **event extractor** (`Event_Extractor`). It
projects an agent event log, a JSON document, into flat event records. It then
derives per-event summary rows and the sorted list of grounding sources. The
source-analysis view adds two computations: the per-domain **usage
histogram** and the **category classification** of sources by keyword. The
agent-details view adds two text transforms: the **HTML escape** of an agent's
output and the **display name** made from an author id.

The second is the solver's **bounded conflict-resolution loop**
(`resolve_conflicts`). It checks the current role thoughts for the text "No
conflicts" and, while the marker is absent, re-collects the thoughts. It stops
at the marker or after `max_iterations` re-collections. The step function
`collect_role_thoughts`, and the solver's other step functions, are fixed text
templates.

Modules, one file each:

- `Common`: `Option` and `Result`.
- `Json`: the JSON value, Python truthiness and `dict.get`.
- `Text`: substring test, single-character `str.replace`, `''.join` and
  `sep.join`, ASCII `str.lower` and `str(n)` for naturals.
- `LexOrder`: Python's `str` ordering and `sorted` for a set.
- `Tally`: counting dictionaries (`d[k] = d.get(k, 0) + 1`) and the sum of
  their values.
- `EventLog`: the extractor.
- `Sources`: usage and categories.
- `Display`: the escape and the display name.
- `Agent`: the templates and the loop.

The extractor is modelled with imperative methods, because the source builds its
lists by appending inside nested loops. Each method is proved equal to a recursive
specification function of the document, such as `AllEvents` or `EventRecord`.
Lemmas then state what those functions mean:

- one record per event, in order;
- exactly the texts of the parts that have `text`;
- one chunk record per chunk that has `web`;
- every support kept, with its defaults.

The usage and category loops are proved to produce counting dictionaries, and
the `Tally` lemmas show that those dictionaries count each value exactly and
sum to the length of the list. The conflict loop is a method proved equal to
`Resolution`. Lemmas characterise `Resolution`: the marker's first
appearance, the bound on re-collections, and its closed form.

The extractor is given the parsed JSON value. Well-typed input is stated by
the `Wf*` predicates: events, parts, chunks and supports are objects, texts
are strings, a domain is a string or null, iterated fields are arrays, and
`webSearchQueries` is a list.
These predicates are the preconditions of the extraction methods.

Where the code and the natural reading differ, the model follows the code:

- A document with no `events` key yields no events and no error.
- `Event_Extractor(json_data={})` is refused, because an empty dict is falsy.
- When the marker is present but `max_iterations <= 0`, the loop reports
  "Conflicts resolved after 0 iterations.". It never looks at the marker.

## Model

| member | source | states |
|---|---|---|
| EventLog.NewExtractor | streamlit_ui/app.py:21-24 | the extractor is created exactly when `json_data` is truthy, and then holds that document; otherwise it is a `ValueError` |
| EventLog.EmptyDocumentRefused | streamlit_ui/app.py:21-24 | `{}` is refused, while a non-empty dict without `events` is accepted |
| EventLog.ExtractEvent | streamlit_ui/app.py:29-73 | the loop body for one event builds exactly the record `EventRecord` of the event |
| EventLog.ExtractTexts | streamlit_ui/app.py:42-46 | the parts loop appends exactly `ContentParts` of the parts |
| EventLog.ExtractChunks | streamlit_ui/app.py:52-60 | the chunks loop appends exactly `GroundingChunks` of the chunks |
| EventLog.ExtractSupports | streamlit_ui/app.py:63-69 | the supports loop appends exactly `GroundingSupports` of the supports |
| EventLog.ExtractAllEvents | streamlit_ui/app.py:26-77 | the appending loop returns exactly `AllEvents` of the document |
| EventLog.EventRecordsAt | streamlit_ui/app.py:28-75 | there is one record per element of `events`, and record i is made from event i |
| EventLog.NoEventsKey | streamlit_ui/app.py:28 | a document with no `events` key yields the empty list |
| EventLog.ContentPartsAppend | streamlit_ui/app.py:44-46 | filtering parts commutes with concatenation, so the kept texts keep their input order |
| EventLog.ContentPartsMembers | streamlit_ui/app.py:44-46 | a text is in `content_parts` iff some part carries it under `text` |
| EventLog.GroundingChunksAppend | streamlit_ui/app.py:53-60 | chunk records keep the order of their chunks |
| EventLog.GroundingChunksMembers | streamlit_ui/app.py:53-60 | a chunk record is present iff some chunk has a `web` object whose `domain`, `title` and `uri` it holds, with null for a missing field |
| EventLog.GroundingChunks | streamlit_ui/app.py:53-60 | every chunk record's domain is a string or null |
| EventLog.GroundingSupportsAt | streamlit_ui/app.py:63-69 | every support is kept, in order, with `groundingChunkIndices` defaulting to `[]` and `segment` to `{}` |
| EventLog.MetadataDefaults | streamlit_ui/app.py:49-73 | without `groundingMetadata` the chunks, supports and queries are empty; otherwise the queries are `webSearchQueries` verbatim |
| EventLog.GetEventSummary | streamlit_ui/app.py:79-94 | there is one row per event; each row copies the id, author, role and timestamp; `Content_Length` is the summed length of the texts; each count is the length of its list |
| EventLog.TwoEventLog | streamlit_ui/app.py:26-77 | a log of two well-formed events extracts to their two records, in order |
| EventLog.SampleLogSummary | streamlit_ui/app.py:26-94 | on a two-event log, the extracted content lengths are 5 and 8, and the chunk and query counts are 0 and 1 |
| EventLog.AllEventsTyped | streamlit_ui/app.py:56-60 | every extracted chunk domain is a string or null |
| EventLog.NamedDomainsMembers | streamlit_ui/app.py:99-102 | a string is among the named domains iff it is non-empty and is the domain of some chunk of some event |
| EventLog.ChunkDomainsMembers | streamlit_ui/app.py:100-102 | within one event, `if chunk['domain']` keeps exactly the non-empty string domains |
| EventLog.AddChunkDomains | streamlit_ui/app.py:100-102 | the inner loop adds to the set exactly the non-empty domains of the event's chunks |
| EventLog.GetGroundingSources | streamlit_ui/app.py:96-103 | the result is strictly sorted (sorted, no duplicates) and holds exactly the non-empty domains of all chunks |
| LexOrder.SortedList | streamlit_ui/app.py:103 | `sorted(list(s))` is strictly increasing in Python's string order and has exactly the members of `s` |
| LexOrder.SortedUnique | streamlit_ui/app.py:103 | two strictly sorted lists with the same members are equal, so the sorted source list is unique |
| LexOrder.LessTotal | streamlit_ui/app.py:103 | Python's string order relates any two different strings |
| LexOrder.LessTransitive | streamlit_ui/app.py:103 | Python's string order is transitive |
| Text.ConcatLength | streamlit_ui/app.py:88 | `len(''.join(parts))` is the sum of the parts' lengths |
| Tally.CountedTallies | streamlit_ui/app.py:465-470 | applying `d[x] = d.get(x, 0) + 1` for each x of a list counts every value exactly as often as it occurs, and the counts sum to the length of the list |
| Tally.SumBump | streamlit_ui/app.py:470 | one counter step adds one to the sum of the values |
| Tally.CountedAppend | streamlit_ui/app.py:466-470 | counting over all events is counting event after event |
| Sources.CountSourceUsage | streamlit_ui/app.py:465-470 | `source_usage` counts every non-empty chunk domain of every event, has no other key, and its values sum to the number of such chunks |
| Sources.CountChunkDomains | streamlit_ui/app.py:467-470 | the inner loop adds one per chunk with a truthy domain |
| Sources.CategoryOfFirstMatch | streamlit_ui/app.py:509-513 | a source is counted under category k iff one of k's keywords is a substring of the lower-cased source and no earlier category's keyword is |
| Sources.CategoryOfOther | streamlit_ui/app.py:514-515 | a source is counted as `Other` iff no keyword of any category occurs in it |
| Sources.CategoryNamesDistinct | streamlit_ui/app.py:499-506 | the four category names and `Other` are distinct, so each source lands in exactly one key |
| Sources.CategoryExamples | streamlit_ui/app.py:499-513 | `forbes.com` is Commercial, because `com` is tried before the news keywords, and `MIT.EDU` is Academic/Research, because matching is case-insensitive |
| Sources.CountSource | streamlit_ui/app.py:507-515 | the body for one source, with its `break`, adds one to the count of `CategoryOf(source)` and changes nothing else |
| Sources.CategorizeSources | streamlit_ui/app.py:506-515 | `source_categories` counts each source once under its category, keeps `Other` as a key, and its counts sum to the number of sources |
| Sources.SourceAnalysis | streamlit_ui/app.py:457-515 | the sources are strictly sorted; the usage keys are exactly the sources; usage counts are occurrence counts summing to the number of named chunks; categories are computed iff there is some usage, and then sum to the number of sources |
| Display.EscapeAsWrittenSafe | streamlit_ui/app.py:377-382 | the escaped text has no newline, every `<` begins an inserted `<br>` and every `>` ends one |
| Display.EscapeAsWrittenAppend | streamlit_ui/app.py:377-382 | the escape of a concatenation is the concatenation of the escapes |
| Display.EscapeAsWrittenCons | streamlit_ui/app.py:377-382 | the chain of three replacements acts character by character: `<`, `>` and newline become `&lt;`, `&gt;` and `<br>` |
| Display.EscapeAsWrittenCollides | streamlit_ui/app.py:377-382 | the text `<` and the text `&lt;` escape to the same markup |
| Display.UnescapeEscape | streamlit_ui/app.py:376-382 | with `&` escaped first, rendering the escaped text gives back the original |
| Display.EscapeInjective | streamlit_ui/app.py:376-382 | with `&` escaped first, different texts give different markup |
| Display.EscapeSafe | streamlit_ui/app.py:376-382 | escaping `&` as well keeps the markup safe |
| Display.EscapeAgreesWithoutAmpersand | streamlit_ui/app.py:377-382 | on text without `&`, the corrected escape equals the chain as written |
| Display.ContentMarkupAsWritten | streamlit_ui/app.py:376-382 | the markup the view shows for an agent's output, its texts joined with blank lines and escaped by the chain as written, is safe; when no text holds `&` it equals the corrected markup and renders back to the joined text |
| Display.ContentMarkupAgrees | streamlit_ui/app.py:376-382 | when no text of the output holds `&`, the view's markup equals the corrected markup |
| Display.ContentMarkupAsWrittenCollides | streamlit_ui/app.py:376-382 | the outputs `&lt;` and `<` get the same markup in the view, and the output `&lt;` is shown as `<` |
| Display.ContentMarkup | streamlit_ui/app.py:376-382 | with `&` escaped first, an agent's output, joined with blank lines and escaped, is safe markup that renders back to the joined text |
| Display.TitleAt | streamlit_ui/app.py:348 | `str.title()` keeps the length, keeps non-letters, and upper-cases exactly the letters that start a word |
| Display.DisplayNameAt | streamlit_ui/app.py:348 | the display name has the author id's length; `_` becomes a space, other non-letters are kept, and each letter is upper-case iff it starts a word |
| Display.DisplayNameExample | streamlit_ui/app.py:348 | `scoring_agent` is shown as `Scoring Agent` |
| Agent.CollectProblemData | app/agent.py:45-54 | the problem statement appears verbatim, at a fixed position, in the returned text |
| Agent.IdentifyRoles | app/agent.py:71-81 | the problem context appears verbatim, at a fixed position |
| Agent.GenerateRolePrompts | app/agent.py:97-108 | the roles appear verbatim, at a fixed position |
| Agent.SynthesizeFinalSolution | app/agent.py:240-248 | the prioritised solutions appear verbatim, at a fixed position |
| Agent.EmbeddingTemplatesInjective | app/agent.py:45-248 | each of these four templates gives different texts for different arguments |
| Agent.CollectRoleThoughts | app/agent.py:124-132 | the result is the fixed role-thoughts text, whatever the prompts, and it never contains "No conflicts" |
| Agent.RoleThoughtsLackMarker | app/agent.py:124-132 | the role-thoughts template does not contain "No conflicts" |
| Agent.ReportInjective | app/agent.py:177-180 | the returned message determines both the outcome and the iteration count |
| Agent.ResolveConflicts | app/agent.py:171-180 | the loop returns the report of `Resolution` |
| Agent.ResolutionMeaning | app/agent.py:172-180 | at most max(0, max_iterations) re-collections are made; the reported count is the number of re-collections; "no conflicts after n" means the marker first appears after n re-collections; "resolved after n" means it never appeared, and then n = max(0, max_iterations) |
| Agent.ResolveFromFirstMarker | app/agent.py:174-179 | from any counter value reached without a marker, the loop stops at the first marker or at the bound |
| Agent.ResolveFromNoMarker | app/agent.py:174-180 | once the thoughts lack the marker, the loop runs to the bound and reports "resolved" |
| Agent.ResolutionClosedForm | app/agent.py:171-180 | the result is "no conflicts after 0" when the input holds the marker and the bound is positive, and "resolved after max(0, max_iterations)" otherwise |
| Agent.DefaultBoundReport | app/agent.py:171-180 | with the default bound 3 and no marker, the message is "Conflict Check: Conflicts resolved after 3 iterations." |

## Left out

- Reading `json_file_path` and `json.load` are file I/O. The model starts from the parsed value, and `NewExtractor` models the `json_data` branch only.
- Ill-typed JSON is excluded by the `Wf*` preconditions. Examples are `content` present but null, or a part that is a string (where `'text' in part` would be a substring test).
- JSON numbers are `real` values that are only passed through. Floating-point behaviour is not modelled.
- Streamlit calls, CSS, Plotly figures, tabs, expanders and buttons are rendering only.
- The "most referenced" line, the average-references line and the `sort_values(...).head(15)` bar chart are left out. They are pandas operations and float arithmetic.
- Timestamp formatting, the workflow chart's timestamp normalisation and the float averages are left out. They involve clocks, time zones and floats.
- CSV export and DataFrame styling are library calls. The summary DataFrame is a sequence of `SummaryRow`s.
- `Sources.CategorizeSources`: a Python dict remembers insertion order, which fixes the order of the pie-chart slices. The model's map does not capture that order.
- `LexOrder.SortedList`: the set is drained in an arbitrary order and sorted by insertion. Only the result is modelled, and it is unique by `LexOrder.SortedUnique`.
- `Display.Unescape` models rendering as the decoding of `&amp;`, `&lt;`, `&gt;` and `<br>` only. A browser also decodes other entities and collapses runs of spaces, so "renders back to the original" holds under this narrower model of rendering.
- `Text.Lower` and `Display.Title`: case mapping covers ASCII letters only. Other Unicode letters are left unchanged and count as non-letters for `.title()`.
- `LlmResponse` is modelled as the identity on text. The Google ADK objects (`Agent`, `SequentialAgent`, `google_search`), `google.auth.default()` and the environment set-up are vendor wiring whose behaviour is not visible.
- The ten agents' instruction prompts are configuration strings that no modelled function reads.
- `Agent.FactCheckRoleThoughts`, `Agent.RunSimulations`, `Agent.ScoreSolutions` and `Agent.GenerateVisuals` return constant texts. They carry no contract, because the only thing to state is that they ignore their argument.

## Findings

| source | as written | input that shows it | evidently intended | confidence | as-written member | corrected member |
|---|---|---|---|---|---|---|
| streamlit_ui/app.py:377-382 | the escape replaces `<`, `>` and newlines but not `&`, so an entity in the agent's text is rendered as the character it names | the text `&lt;` is rendered as `<`, exactly like the text `<` | escape `&` as `&amp;` first, so that the rendered markup shows the agent's text unchanged | medium, not executed | Display.ContentMarkupAsWrittenCollides | Display.ContentMarkup |

`Display.ContentMarkupAsWritten` models what the agent-details view shows,
with the chain as written; `Display.EscapeAsWrittenCollides` is the same
collision for the escape alone. `Display.ContentMarkup` is the corrected view
markup, which escapes `&` first; its round trip rests on
`Display.UnescapeEscape`. `Display.ContentMarkupAgrees` shows that the two
agree on any output without `&`.
