# OSINT Toolkit catalog core, modelled in Dafny

The OSINT Toolkit is a Streamlit page that browses a fixed catalog of
open-source-intelligence tools grouped into categories. This project models its
core in `osint_frmework/app.py`:

- the **loader's enrichment**: each tool gets the identifier `"<ci>_<ti>"`, a tag
  list (empty when absent), and the name of its category;
- the **search**: an optional category filter, an optional tag filter and a
  free-text query; tools are scored by the best of four fuzzy field matches;
  weak matches are dropped; the rest are stably sorted by score descending, then
  name ascending;
- the **grid**: the column count for the display mode, the number of rows, and
  which hit goes in which cell;
- the card **contents**: the category icon and the highlighted title and
  description.

Modules, one per concern of the source:

| file | module | models |
|---|---|---|
| `wrappers.dfy` | `Wrappers` | `Option`, for a missing field or a `None` argument |
| `text.dfy` | `Text` | `str.lower()`, `str.strip()`, `" ".join`, and string `<=` |
| `decimal.dfy` | `Decimal` | `str(n)` for a position, and its inverse |
| `catalog.dfy` | `Catalog` | catalog records and the enrichment loop of `load_tools` |
| `icons.dfy` | `Icons` | the icon table and `get_category_icon` |
| `ranking.dfy` | `Ranking` | result tuples and `sorted(out, key=lambda x: (-x[2], x[1]["name"]))` |
| `search.dfy` | `Search` | `search_tools` |
| `layout.dfy` | `Layout` | column and row counts, the cell loops, highlighting, card contents |

`fuzz.partial_ratio` belongs to a foreign library. It is a parameter
`ratio: (string, string) -> int`. The only assumption about it is the range the
library documents, 0 to 100 (`ScorerInRange`). The display mode, which the page
keeps in `st.session_state.is_mobile`, is a parameter as well.

Python's `sorted` is a library call. It is modelled by an insertion sort,
`SortHits`. `StableSortUnique` proves that a sorted result that keeps the input
order of equal keys can only be one list. So the model returns exactly what any
stable sort by `(-score, name)` returns, including Python's.

Highlighting uses `re.sub` without a count. So it replaces every
non-overlapping case-insensitive occurrence of the query, scanning left to
right, and the model does the same. The replacement puts the query as typed
inside `<mark>`, not the text it matched. So a title can change case when
highlighted, and the model keeps that behaviour.

## Model

| member | source | states |
|---|---|---|
| `Text.Strip` | osint_frmework/app.py:343 | The result is empty iff the input is all whitespace. Otherwise it neither starts nor ends with whitespace. It is a slice of the input with only whitespace cut off either side. |
| `Text.LeReflexive` | osint_frmework/app.py:368 | Python string `<=` is reflexive. |
| `Text.LeTotal` | osint_frmework/app.py:368 | Any two names are comparable under string `<=`. |
| `Text.LeAntisymmetric` | osint_frmework/app.py:368 | Two names with `a <= b` and `b <= a` are equal. |
| `Text.LeTransitive` | osint_frmework/app.py:368 | String `<=` is transitive. |
| `Decimal.Show` | osint_frmework/app.py:55 | `str(n)` is a non-empty string of decimal digits with no leading zero. |
| `Decimal.ParseShow` | osint_frmework/app.py:55 | Parsing `str(n)` gives back `n`. |
| `Decimal.ShowInjective` | osint_frmework/app.py:55 | Distinct numbers have distinct decimal strings. |
| `Catalog.UidInjective` | osint_frmework/app.py:53-55 | `"<ci>_<ti>"` equals `"<cj>_<tj>"` iff `ci == cj` and `ti == tj`. |
| `Catalog.EnrichedInvariants` | osint_frmework/app.py:53-57 | In an enriched catalog, uids are pairwise distinct across all categories, and every tool's `category` is its category's name. |
| `Catalog.Enrich` | osint_frmework/app.py:53-57 | Category order, names and tool counts are kept. Tool `ti` of category `ci` gets uid `"<ci>_<ti>"`, its own tags or `[]` when absent, and the category name. Name, description and url are unchanged. The result has unique uids. |
| `Icons.CategoryIcon` | osint_frmework/app.py:69-106 | A listed category gets its table icon, any other name gets the wrench icon, and the icon is never empty. |
| `Icons.DefaultIconExactly` | osint_frmework/app.py:69-106 | The default icon is shown iff the category is not listed or is "Tools". |
| `Ranking.BeforeTotal` | osint_frmework/app.py:368 | The sort key order is total. |
| `Ranking.BeforeTransitive` | osint_frmework/app.py:368 | The sort key order is transitive. |
| `Ranking.BeforeBothWays` | osint_frmework/app.py:368 | Two hits each ordered before the other are exactly the hits with equal score and equal name. |
| `Ranking.InsertPermutes` | osint_frmework/app.py:368 | Inserting a hit adds exactly that hit. |
| `Ranking.InsertSorted` | osint_frmework/app.py:368 | Inserting into a sorted list keeps it sorted. |
| `Ranking.InsertWithKey` | osint_frmework/app.py:368 | The inserted hit comes after every earlier hit with the same key. |
| `Ranking.SortHitsSorted` | osint_frmework/app.py:368 | For every pair of results, the earlier has the higher score, or the same score and a name `<=` the later one's. |
| `Ranking.SortHitsPermutes` | osint_frmework/app.py:368 | The sorted list is a permutation of `out`. |
| `Ranking.SortHitsStable` | osint_frmework/app.py:368 | Hits with equal (score, name) keep their order in `out`. |
| `Ranking.StableSortUnique` | osint_frmework/app.py:368 | Two sorted lists that agree on the order within every key are equal. |
| `Ranking.SortHitsIsTheStableSort` | osint_frmework/app.py:368 | Any sorted, stable rearrangement of `out` is `SortHits(out)`. |
| `Text.Lower` | osint_frmework/app.py:343 | `lower()` keeps the length and folds each character on its own. No upper-case ASCII letter remains, and whitespace stays whitespace. |
| `Search.Normalize` | osint_frmework/app.py:343 | The normalized query is `Strip(Lower(query))` for a given query, so `Strip`'s and `Lower`'s facts apply to it. It is empty iff the query is `None`, empty or all whitespace, and contains no upper-case ASCII letter. |
| `Search.Score` | osint_frmework/app.py:354-362 | The score is 100 for an empty query. Otherwise it is one of the four field scores (name, description, category name, joined tags) and at least each of them. |
| `Search.ToolHitsSound` | osint_frmework/app.py:350-366 | A hit collected from one category is one of its tools, passed the tag filter and the threshold, and carries its score. |
| `Search.ToolHitsComplete` | osint_frmework/app.py:350-366 | Every tool of a category that passes the tag filter and the threshold is collected. |
| `Search.CollectedSound` | osint_frmework/app.py:346-366 | Every collected hit is a catalog tool in its own category. It passes the category filter (equal to the filter unless "All"), the tag filter (shares a selected tag unless the filter is inert) and the threshold, and it carries its score. |
| `Search.CollectedComplete` | osint_frmework/app.py:346-366 | Every catalog tool passing all three filters is collected. |
| `Search.EmptyQueryToolHits` | osint_frmework/app.py:351-355 | With an empty query and an inert tag filter, every tool of a category is collected in order at score 100. |
| `Search.EmptyQueryCollectsAll` | osint_frmework/app.py:334 | With an empty query, "All" and an inert tag filter, the collected list is every catalog tool once, in catalog order, at score 100. Its length is the sidebar's tool count. |
| `Search.CollectedScores` | osint_frmework/app.py:355-366 | Every collected score lies between 65 and 100. |
| `Search.RankedFacts` | osint_frmework/app.py:346-368 | The ranked list is sorted, a stable permutation of `out`, sound and complete with respect to the filters, and scored within [65, 100]. For an empty unfiltered search it holds every catalog tool once. |
| `Search.ScanTools` | osint_frmework/app.py:350-366 | The tool loop of one category returns exactly the hits `ToolHits` defines: the tools in order that pass the tag filter and the threshold, each with the best of its four field scores. |
| `Search.SearchTools` | osint_frmework/app.py:342-368 | The scan over categories and tools builds `out` in scan order. The result is `out` stably sorted, and it has every property `RankedFacts` lists. |
| `Layout.Columns` | osint_frmework/app.py:377-382 | The column count is 2 iff the mode is "tablet", and 3 otherwise. |
| `Layout.Rows` | osint_frmework/app.py:385 | The rows hold all hits (`rows * columns >= count`) with no spare row (`(rows - 1) * columns < count` for `count > 0`). There are no rows for no hits. |
| `Layout.CellIndex` | osint_frmework/app.py:391-392 | Cell `(row, col)` with `col < columns` holds index `i = row * columns + col`, and `(row, col)` is `(i / columns, i % columns)`. So no other cell holds `i`. |
| `Layout.GridCoversOnce` | osint_frmework/app.py:385-393 | Every index below the hit count has a cell inside the grid that maps back to it. |
| `Layout.Highlight` | osint_frmework/app.py:395-396 | Title and description are unchanged when the query is `None` or empty. |
| `Layout.ReplaceAllGrows` | osint_frmework/app.py:395-396 | Highlighting never shortens the text, and it lengthens the text whenever the query occurs in it, ignoring case. |
| `Layout.ReplaceAllSkips` | osint_frmework/app.py:395-396 | A stretch in which no occurrence of the query starts is copied unchanged, and replacing goes on with what follows it. |
| `Layout.ReplaceAllMatch` | osint_frmework/app.py:395-396 | An occurrence at the start, in any ASCII case, becomes `<mark>q</mark>` with `q` as typed, and replacing goes on right after it, so occurrences never overlap. |
| `Layout.ReplaceAllLeftmost` | osint_frmework/app.py:395-396 | The leftmost occurrence is marked, the text before it is kept, and the rest of the text after the occurrence is highlighted in the same way. |
| `Layout.ReplaceAllEveryMatch` | osint_frmework/app.py:395-396 | `n` back-to-back occurrences give `n` markers: every occurrence is replaced, not only the first. |
| `Layout.ReplaceAllMarksBoth` | osint_frmework/app.py:395-396 | Highlighting "ab" in "abAB" marks both occurrences. |
| `Layout.ReplaceAllNoMatch` | osint_frmework/app.py:395-396 | A text in which the query does not occur is left unchanged. |
| `Layout.HighlightChangesIffOccurs` | osint_frmework/app.py:395-396 | For a non-empty query, highlighting changes the text iff the query occurs in it, ignoring case. |
| `Layout.RenderRow` | osint_frmework/app.py:391-396 | After the column loop of row `row`, the cards rendered so far are one per hit up to the end of that row, hit `i` in cell `(i / columns, i % columns)`. |
| `Layout.RenderGrid` | osint_frmework/app.py:377-410 | One card per hit, in order. Hit `i` is in row `i / columns` and column `i % columns`. The card holds the category icon, the highlighted name and description, the category badge and the url. |

## Left out

- Reading `data/osint_tools.json` and decoding it (osint_frmework/app.py:47-52) are left out. The model starts from the parsed value.
- The `st.error`/`st.stop` error paths (58-64) are left out. This includes the `KeyError` of a category without `name`.
- Missing top-level `categories` and per-category `tools` keys are not modelled. The loader reads them with `.get(..., [])`, but `search_tools` and the sidebar index them directly. The parsed shape is taken as having both.
- A `tags` value that is present but not a list (such as JSON `null`) is not modelled. Parsed tags are either absent or a list of strings.
- `Catalog.Enrich`: works on values. The source updates the freshly parsed dicts in place. Nothing else refers to them, so the update is modelled as building the enriched catalog.
- The `@st.cache_data` memoisation (44, 341) is left out. It is a timing-based cache and does not change results.
- The internals of `fuzz.partial_ratio` are left out. It is a foreign Levenshtein-based matcher and stays an abstract parameter, assumed to return 0..100.
- Scores are integers. The source's empty-query score is the float `100.0`, but it compares equal to the integer 100 in the sort key.
- `Text.Lower`: folds only ASCII letters. Python's `str.lower()` also folds non-ASCII letters.
- `Layout.ReplaceAll`: matches case-insensitively on ASCII letters only. Python's `re.I` uses Unicode case folding.
- `Layout.ReplaceAll`: does not model `re.sub` reading backslash escapes in the replacement string built from the query. A query containing `\` can change the replacement or raise an error there. That is regex-library behaviour.
- The injected JavaScript viewport detection (19-41) is left out. The display mode is a parameter of `Layout.Columns` and `Layout.RenderGrid`.
- All HTML, CSS, header, footer and `st.markdown`/`st.columns` rendering is left out, as is the "No tools found" message shown for an empty result. The model gives each card's contents and position only.
- The sidebar's category list (318) and its count text (334-338) are left out. Only the tool count is stated, as `Search.ToolCount`.
- `pylaunch.py` is left out. It is page configuration and static HTML embedding.
