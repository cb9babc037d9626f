/** The catalog: categories of tools, as parsed from the data file and as
    enriched by the loader (`load_tools`). */
module Catalog {

  import opened Wrappers
  import opened Decimal

  /** A tool record as parsed; `tags` may be missing. */
  datatype RawTool = RawTool(name: string, description: string, url: string, tags: Option<seq<string>>)

  datatype RawCategory = RawCategory(name: string, tools: seq<RawTool>)

  /** A tool after loading: it carries its identifier, a tag list and the
      name of the category that holds it. */
  datatype Tool = Tool(uid: string, name: string, description: string, url: string,
                       tags: seq<string>, category: string)

  datatype Category = Category(name: string, tools: seq<Tool>)

  /** The identifier `f"{ci}_{ti}"` of tool `ti` of category `ci`. */
  function Uid(ci: nat, ti: nat): string {
    Show(ci) + "_" + Show(ti)
  }

  /** Two positions get the same identifier only if they are the same position. */
  lemma UidInjective(ci: nat, ti: nat, cj: nat, tj: nat)
    ensures Uid(ci, ti) == Uid(cj, tj) <==> ci == cj && ti == tj
  {
    if Uid(ci, ti) == Uid(cj, tj) {
      var a, c := Show(ci), Show(cj);
      var u := Uid(ci, ti);
      assert u[|a|] == '_' && u[|c|] == '_';
      assert a == u[..|a|] == c;
      assert Show(ti) == u[|a| + 1..] == Show(tj);
      ShowInjective(ci, cj);
      ShowInjective(ti, tj);
    }
  }

  /** Tool `t` is raw tool `r`, at position `ti` of category `ci` named
      `cname`, as the loader leaves it: identifier assigned, missing tags
      defaulted to the empty list, category name copied in, nothing else
      changed. */
  predicate ToolEnriched(t: Tool, r: RawTool, ci: nat, ti: nat, cname: string) {
    && t.uid == Uid(ci, ti)
    && t.name == r.name
    && t.description == r.description
    && t.url == r.url
    && t.tags == r.tags.GetOr([])
    && t.category == cname
  }

  predicate CategoryEnriched(c: Category, r: RawCategory, ci: nat) {
    && c.name == r.name
    && |c.tools| == |r.tools|
    && forall ti :: 0 <= ti < |r.tools| ==> ToolEnriched(c.tools[ti], r.tools[ti], ci, ti, r.name)
  }

  /** `cats` is the whole of `raw` enriched, in the same order. */
  predicate CatalogEnriched(cats: seq<Category>, raw: seq<RawCategory>) {
    && |cats| == |raw|
    && forall ci :: 0 <= ci < |raw| ==> CategoryEnriched(cats[ci], raw[ci], ci)
  }

  /** Every tool of the catalog has an identifier of its own. */
  predicate UniqueUids(cats: seq<Category>) {
    forall ci, ti, cj, tj ::
      && 0 <= ci < |cats| && 0 <= ti < |cats[ci].tools|
      && 0 <= cj < |cats| && 0 <= tj < |cats[cj].tools|
      && cats[ci].tools[ti].uid == cats[cj].tools[tj].uid
      ==> ci == cj && ti == tj
  }

  /** Every tool names the category that holds it. */
  predicate Denormalized(cats: seq<Category>) {
    forall ci, ti :: 0 <= ci < |cats| && 0 <= ti < |cats[ci].tools| ==> cats[ci].tools[ti].category == cats[ci].name
  }

  /** An enriched catalog has unique identifiers and denormalized category names. */
  lemma EnrichedInvariants(cats: seq<Category>, raw: seq<RawCategory>)
    requires CatalogEnriched(cats, raw)
    ensures UniqueUids(cats)
    ensures Denormalized(cats)
  {
    forall ci, ti, cj, tj |
      && 0 <= ci < |cats| && 0 <= ti < |cats[ci].tools|
      && 0 <= cj < |cats| && 0 <= tj < |cats[cj].tools|
      && cats[ci].tools[ti].uid == cats[cj].tools[tj].uid
      ensures ci == cj && ti == tj
    {
      assert ToolEnriched(cats[ci].tools[ti], raw[ci].tools[ti], ci, ti, raw[ci].name);
      assert ToolEnriched(cats[cj].tools[tj], raw[cj].tools[tj], cj, tj, raw[cj].name);
      UidInjective(ci, ti, cj, tj);
    }
  }

  /** The enrichment loop of `load_tools`: for every category `ci` and every
      tool `ti` in it, set `uid`, default `tags`, copy the category name. */
  method Enrich(raw: seq<RawCategory>) returns (cats: seq<Category>)
    ensures CatalogEnriched(cats, raw)
    ensures UniqueUids(cats)
    ensures Denormalized(cats)
  {
    cats := [];
    for ci := 0 to |raw|
      invariant |cats| == ci
      invariant forall k :: 0 <= k < ci ==> CategoryEnriched(cats[k], raw[k], k)
    {
      var c := raw[ci];
      var tools: seq<Tool> := [];
      for ti := 0 to |c.tools|
        invariant |tools| == ti
        invariant forall k :: 0 <= k < ti ==> ToolEnriched(tools[k], c.tools[k], ci, k, c.name)
      {
        var t := c.tools[ti];
        tools := tools + [Tool(Uid(ci, ti), t.name, t.description, t.url, t.tags.GetOr([]), c.name)];
      }
      cats := cats + [Category(c.name, tools)];
    }
    EnrichedInvariants(cats, raw);
  }
}
