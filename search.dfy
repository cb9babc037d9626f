/** `search_tools`: filter the catalog by category and tags, score each
    remaining tool against the query, drop weak matches, and rank the rest. */
module Search {

  import opened Wrappers
  import opened Text
  import opened Catalog
  import opened Ranking

  /** The category filter value that selects every category. */
  const AllCategories: string := "All"
  /** The tag selection the interface offers when there are no tags; it filters nothing. */
  const NoTagsSelection: seq<string> := ["No tags available"]
  /** Tools whose score is below this are dropped when there is a query. */
  const Threshold: int := 65
  /** The score of every tool when the query is empty. */
  const FullScore: int := 100

  /** `fuzz.partial_ratio(a, b)`: how well `a` matches the best-aligned part of `b`. */
  type Scorer = (string, string) -> int

  /** The range the fuzzy matcher promises: 0 to 100. */
  ghost predicate ScorerInRange(ratio: Scorer) {
    forall a, b :: 0 <= ratio(a, b) <= 100
  }

  /** `query.lower().strip() if query else ""`. */
  function Normalize(query: Option<string>): (q: string)
    ensures q == "" <==> query.None? || AllSpace(query.value)
    ensures forall k :: 0 <= k < |q| ==> !IsUpper(q[k])
    ensures query.Some? ==> q == Strip(Lower(query.value))
  {
    match query
    case None => ""
    case Some(s) => if s == "" then "" else Strip(Lower(s))
  }

  /** The arguments of one search, with the query already normalized. */
  datatype Request = Request(query: string, category: string, tags: seq<string>)

  function RequestOf(query: Option<string>, selectedCategory: string, selectedTags: seq<string>): Request {
    Request(Normalize(query), selectedCategory, selectedTags)
  }

  predicate CategoryPasses(r: Request, name: string) {
    r.category == AllCategories || name == r.category
  }

  /** The tag filter filters nothing when empty or when it is the "no tags" selection. */
  predicate TagFilterInert(tags: seq<string>) {
    tags == [] || tags == NoTagsSelection
  }

  predicate TagsPass(r: Request, t: Tool) {
    TagFilterInert(r.tags) || exists tag :: tag in r.tags && tag in t.tags
  }

  function Max(a: int, b: int): int {
    if a >= b then a else b
  }

  /** The four field scores: the query against the name, the description,
      the category name and the space-joined tags, each lower-cased. */
  function FieldScores(q: string, catName: string, t: Tool, ratio: Scorer): seq<int> {
    [ratio(q, Lower(t.name)), ratio(q, Lower(t.description)),
     ratio(q, Lower(catName)), ratio(q, Lower(Join(" ", t.tags)))]
  }

  /** The relevance of tool `t` of category `catName`: full for an empty
      query, otherwise the best of its four field scores. */
  function Score(r: Request, catName: string, t: Tool, ratio: Scorer): (score: int)
    ensures r.query == "" ==> score == FullScore
    ensures r.query != "" ==> score in FieldScores(r.query, catName, t, ratio)
    ensures r.query != "" ==> forall k :: 0 <= k < 4 ==> FieldScores(r.query, catName, t, ratio)[k] <= score
  {
    if r.query == "" then FullScore
    else
      var f := FieldScores(r.query, catName, t, ratio);
      Max(Max(Max(f[0], f[1]), f[2]), f[3])
  }

  /** Tool `t` of a category that passed the category filter is kept. */
  predicate ToolAdmitted(r: Request, catName: string, t: Tool, ratio: Scorer) {
    TagsPass(r, t) && (r.query == "" || Score(r, catName, t, ratio) >= Threshold)
  }

  predicate Admitted(r: Request, catName: string, t: Tool, ratio: Scorer) {
    CategoryPasses(r, catName) && ToolAdmitted(r, catName, t, ratio)
  }

  function HitOf(r: Request, catName: string, t: Tool, ratio: Scorer): Hit {
    Hit(catName, t, Score(r, catName, t, ratio))
  }

  /** What the scan over `tools` of category `catName` appends to `out`. */
  function ToolHits(r: Request, catName: string, tools: seq<Tool>, ratio: Scorer): seq<Hit> {
    if tools == [] then []
    else
      var t := tools[|tools| - 1];
      ToolHits(r, catName, tools[..|tools| - 1], ratio)
      + (if ToolAdmitted(r, catName, t, ratio) then [HitOf(r, catName, t, ratio)] else [])
  }

  /** The list `out` after the scan over `cats`, before sorting. */
  function Collected(r: Request, cats: seq<Category>, ratio: Scorer): seq<Hit> {
    if cats == [] then []
    else
      var c := cats[|cats| - 1];
      Collected(r, cats[..|cats| - 1], ratio)
      + (if CategoryPasses(r, c.name) then ToolHits(r, c.name, c.tools, ratio) else [])
  }

  /** Tool `t` is in category `name` of the catalog. */
  ghost predicate InCatalog(cats: seq<Category>, name: string, t: Tool) {
    exists ci, ti :: 0 <= ci < |cats| && 0 <= ti < |cats[ci].tools| && cats[ci].name == name && cats[ci].tools[ti] == t
  }

  /** Every tool of the catalog at full score, in catalog order. */
  function AllHits(cats: seq<Category>): seq<Hit> {
    if cats == [] then []
    else
      var c := cats[|cats| - 1];
      AllHits(cats[..|cats| - 1]) + FullHits(c.name, c.tools)
  }

  /** Every tool of `tools` at full score, in order. */
  function FullHits(catName: string, tools: seq<Tool>): (hs: seq<Hit>)
    ensures |hs| == |tools|
    ensures forall k :: 0 <= k < |tools| ==> hs[k] == Hit(catName, tools[k], FullScore)
  {
    if tools == [] then [] else FullHits(catName, tools[..|tools| - 1]) + [Hit(catName, tools[|tools| - 1], FullScore)]
  }

  /** The number of tools in the catalog (the sidebar's `total_tools`). */
  function ToolCount(cats: seq<Category>): nat {
    if cats == [] then 0 else ToolCount(cats[..|cats| - 1]) + |cats[|cats| - 1].tools|
  }

  /** One more tool scanned: `out` grows by its hit if it is admitted. */
  lemma ToolHitsStep(r: Request, catName: string, tools: seq<Tool>, ratio: Scorer, ti: nat)
    requires ti < |tools|
    ensures ToolHits(r, catName, tools[..ti + 1], ratio) == ToolHits(r, catName, tools[..ti], ratio)
      + (if ToolAdmitted(r, catName, tools[ti], ratio) then [HitOf(r, catName, tools[ti], ratio)] else [])
  {
    assert tools[..ti + 1][..ti] == tools[..ti];
  }

  /** One more category scanned: `out` grows by its tools' hits if it passes the filter. */
  lemma CollectedStep(r: Request, cats: seq<Category>, ratio: Scorer, ci: nat)
    requires ci < |cats|
    ensures Collected(r, cats[..ci + 1], ratio) == Collected(r, cats[..ci], ratio)
      + (if CategoryPasses(r, cats[ci].name) then ToolHits(r, cats[ci].name, cats[ci].tools, ratio) else [])
  {
    assert cats[..ci + 1][..ci] == cats[..ci];
  }

  lemma {:induction false} ToolHitsSound(r: Request, catName: string, tools: seq<Tool>, ratio: Scorer, h: Hit)
    requires h in ToolHits(r, catName, tools, ratio)
    ensures h.category == catName && h.tool in tools
    ensures ToolAdmitted(r, catName, h.tool, ratio) && h == HitOf(r, catName, h.tool, ratio)
  {
    var t := tools[|tools| - 1];
    if h in ToolHits(r, catName, tools[..|tools| - 1], ratio) {
      ToolHitsSound(r, catName, tools[..|tools| - 1], ratio, h);
    }
  }

  /** Every collected hit is a catalog tool of its category that passed all filters, with its score. */
  lemma {:induction false} CollectedSound(r: Request, cats: seq<Category>, ratio: Scorer, h: Hit)
    requires h in Collected(r, cats, ratio)
    ensures Admitted(r, h.category, h.tool, ratio) && h == HitOf(r, h.category, h.tool, ratio)
    ensures InCatalog(cats, h.category, h.tool)
  {
    var p, c := cats[..|cats| - 1], cats[|cats| - 1];
    if h in Collected(r, p, ratio) {
      CollectedSound(r, p, ratio, h);
      var ci, ti :| 0 <= ci < |p| && 0 <= ti < |p[ci].tools| && p[ci].name == h.category && p[ci].tools[ti] == h.tool;
      assert cats[ci] == p[ci];
    } else {
      ToolHitsSound(r, c.name, c.tools, ratio, h);
      var ti :| 0 <= ti < |c.tools| && c.tools[ti] == h.tool;
      assert cats[|cats| - 1].tools[ti] == h.tool;
    }
  }

  lemma {:induction false} ToolHitsComplete(r: Request, catName: string, tools: seq<Tool>, ratio: Scorer, ti: nat)
    requires ti < |tools| && ToolAdmitted(r, catName, tools[ti], ratio)
    ensures HitOf(r, catName, tools[ti], ratio) in ToolHits(r, catName, tools, ratio)
  {
    if ti < |tools| - 1 {
      ToolHitsComplete(r, catName, tools[..|tools| - 1], ratio, ti);
    }
  }

  /** Every catalog tool that passes all filters is collected. */
  lemma {:induction false} CollectedComplete(r: Request, cats: seq<Category>, ratio: Scorer, ci: nat, ti: nat)
    requires ci < |cats| && ti < |cats[ci].tools|
    requires Admitted(r, cats[ci].name, cats[ci].tools[ti], ratio)
    ensures HitOf(r, cats[ci].name, cats[ci].tools[ti], ratio) in Collected(r, cats, ratio)
  {
    if ci < |cats| - 1 {
      CollectedComplete(r, cats[..|cats| - 1], ratio, ci, ti);
    } else {
      ToolHitsComplete(r, cats[ci].name, cats[ci].tools, ratio, ti);
    }
  }

  /** With an empty query and no filter, the scan collects every tool, once, at full score. */
  lemma {:induction false} EmptyQueryCollectsAll(r: Request, cats: seq<Category>, ratio: Scorer)
    requires r.query == "" && r.category == AllCategories && TagFilterInert(r.tags)
    ensures Collected(r, cats, ratio) == AllHits(cats)
    ensures |AllHits(cats)| == ToolCount(cats)
  {
    if cats != [] {
      var c := cats[|cats| - 1];
      EmptyQueryCollectsAll(r, cats[..|cats| - 1], ratio);
      EmptyQueryToolHits(r, c.name, c.tools, ratio);
    }
  }

  lemma {:induction false} EmptyQueryToolHits(r: Request, catName: string, tools: seq<Tool>, ratio: Scorer)
    requires r.query == "" && TagFilterInert(r.tags)
    ensures ToolHits(r, catName, tools, ratio) == FullHits(catName, tools)
  {
    if tools != [] {
      EmptyQueryToolHits(r, catName, tools[..|tools| - 1], ratio);
    }
  }

  /** Every collected score lies between the threshold and full score. */
  lemma CollectedScores(r: Request, cats: seq<Category>, ratio: Scorer, h: Hit)
    requires ScorerInRange(ratio)
    requires h in Collected(r, cats, ratio)
    ensures Threshold <= h.score <= FullScore
  {
    CollectedSound(r, cats, ratio, h);
    if r.query != "" {
      var f := FieldScores(r.query, h.category, h.tool, ratio);
      assert h.score in f;
    }
  }

  /** What the ranked result promises: sorted, a stable permutation of the
      collected list, sound and complete with respect to the filters, and
      every score within bounds. */
  lemma RankedFacts(r: Request, cats: seq<Category>, ratio: Scorer)
    requires ScorerInRange(ratio)
    ensures var hits, out := SortHits(Collected(r, cats, ratio)), Collected(r, cats, ratio);
      && Sorted(hits)
      && multiset(hits) == multiset(out)
      && SameOrderPerKey(hits, out)
      && (forall h :: h in hits ==>
            Admitted(r, h.category, h.tool, ratio) && h == HitOf(r, h.category, h.tool, ratio)
            && InCatalog(cats, h.category, h.tool) && Threshold <= h.score <= FullScore)
      && (forall ci, ti :: 0 <= ci < |cats| && 0 <= ti < |cats[ci].tools| ==>
            Admitted(r, cats[ci].name, cats[ci].tools[ti], ratio) ==> HitOf(r, cats[ci].name, cats[ci].tools[ti], ratio) in hits)
      && (r.query == "" && r.category == AllCategories && TagFilterInert(r.tags) ==>
            multiset(hits) == multiset(AllHits(cats)) && |hits| == ToolCount(cats))
  {
    var out := Collected(r, cats, ratio);
    var hits := SortHits(out);
    SortHitsSorted(out);
    SortHitsPermutes(out);
    SortHitsStable(out);
    forall h | h in hits
      ensures Admitted(r, h.category, h.tool, ratio) && h == HitOf(r, h.category, h.tool, ratio) && InCatalog(cats, h.category, h.tool)
      ensures Threshold <= h.score <= FullScore
    {
      assert h in multiset(out);
      CollectedSound(r, cats, ratio, h);
      CollectedScores(r, cats, ratio, h);
    }
    forall ci, ti | 0 <= ci < |cats| && 0 <= ti < |cats[ci].tools| && Admitted(r, cats[ci].name, cats[ci].tools[ti], ratio)
      ensures HitOf(r, cats[ci].name, cats[ci].tools[ti], ratio) in hits
    {
      CollectedComplete(r, cats, ratio, ci, ti);
      assert HitOf(r, cats[ci].name, cats[ci].tools[ti], ratio) in multiset(hits);
    }
    if r.query == "" && r.category == AllCategories && TagFilterInert(r.tags) {
      EmptyQueryCollectsAll(r, cats, ratio);
      assert |hits| == |multiset(hits)| == |out|;
    }
  }

  /** The inner loop of `search_tools` over the tools of category `c`: the
      tag filter, the score, the threshold, and the hits it appends to `out`. */
  method ScanTools(r: Request, c: Category, ratio: Scorer) returns (found: seq<Hit>)
    ensures found == ToolHits(r, c.name, c.tools, ratio)
  {
    var q := r.query;
    found := [];
    for ti := 0 to |c.tools|
      invariant found == ToolHits(r, c.name, c.tools[..ti], ratio)
    {
      var t := c.tools[ti];
      ToolHitsStep(r, c.name, c.tools, ratio, ti);
      if r.tags != [] && r.tags != NoTagsSelection && !(exists tag :: tag in r.tags && tag in t.tags) {
        continue;
      }
      var score := FullScore;
      if q != "" {
        var tagsText := Join(" ", t.tags);
        score := Max(Max(Max(ratio(q, Lower(t.name)), ratio(q, Lower(t.description))),
                         ratio(q, Lower(c.name))), ratio(q, Lower(tagsText)));
        if score < Threshold {
          continue;
        }
      }
      found := found + [Hit(c.name, t, score)];
    }
    assert c.tools[..|c.tools|] == c.tools;
  }

  /** `search_tools(query, selected_category, selected_tags)` over the catalog `cats`. */
  method SearchTools(cats: seq<Category>, query: Option<string>, selectedCategory: string,
                     selectedTags: seq<string>, ratio: Scorer) returns (hits: seq<Hit>)
    requires ScorerInRange(ratio)
    ensures hits == SortHits(Collected(RequestOf(query, selectedCategory, selectedTags), cats, ratio))
    ensures Sorted(hits)
    ensures multiset(hits) == multiset(Collected(RequestOf(query, selectedCategory, selectedTags), cats, ratio))
    ensures SameOrderPerKey(hits, Collected(RequestOf(query, selectedCategory, selectedTags), cats, ratio))
    ensures forall h :: h in hits ==>
      var r := RequestOf(query, selectedCategory, selectedTags);
      Admitted(r, h.category, h.tool, ratio) && h == HitOf(r, h.category, h.tool, ratio) && InCatalog(cats, h.category, h.tool)
    ensures forall h :: h in hits ==> Threshold <= h.score <= FullScore
    ensures forall ci, ti :: 0 <= ci < |cats| && 0 <= ti < |cats[ci].tools| ==>
      var r := RequestOf(query, selectedCategory, selectedTags);
      Admitted(r, cats[ci].name, cats[ci].tools[ti], ratio) ==> HitOf(r, cats[ci].name, cats[ci].tools[ti], ratio) in hits
    ensures Normalize(query) == "" && selectedCategory == AllCategories && TagFilterInert(selectedTags) ==>
      multiset(hits) == multiset(AllHits(cats)) && |hits| == ToolCount(cats)
  {
    var r := RequestOf(query, selectedCategory, selectedTags);
    var out: seq<Hit> := [];
    for ci := 0 to |cats|
      invariant out == Collected(r, cats[..ci], ratio)
    {
      var c := cats[ci];
      CollectedStep(r, cats, ratio, ci);
      if selectedCategory != AllCategories && c.name != selectedCategory {
        continue;
      }
      var found := ScanTools(r, c, ratio);
      out := out + found;
    }
    assert cats[..|cats|] == cats;
    hits := SortHits(out);
    RankedFacts(r, cats, ratio);
  }
}
