/**
 * The results checker service object: it holds the selected settings preset
 * and the start date, and compiles the preset into store queries step by
 * step. Each loop is proved to compute the specification functions of
 * module QueryCompiler.
 *
 * In the Python service `item.pop('repos')` changes the item mappings that
 * the preset itself holds. Here `ParseBlockSettings` returns the block as
 * those items leave it and `ParseSettings` writes it back into `preset`.
 */
module ResultsChecker {
  import opened Wrappers
  import opened Values
  import opened QueryCompiler

  /** `new_repo`: one repos entry with its keys namespaced, key by key. */
  method PrefixRepo(repo: Dict) returns (newRepo: Dict)
    ensures newRepo == Prefixed(repo)
  {
    PrefixInjective();
    newRepo := map[];
    var todo := repo.Keys;
    while todo != {}
      invariant todo <= repo.Keys
      invariant newRepo.Keys == set k | k in repo.Keys - todo :: RevisionPrefix + k
      invariant forall k :: k in repo.Keys - todo ==> newRepo[RevisionPrefix + k] == repo[k]
      decreases todo
    {
      var key :| key in todo;
      newRepo := newRepo[RevisionPrefix + key := repo[key]];
      todo := todo - {key};
    }
  }

  /** `for repo in item.pop('repos')`: the namespaced entries, or the error the loop raises. */
  method CollectRepos(v: Value) returns (r: Result<seq<Dict>, CompileError>)
    ensures r.Err? <==> RepoEntries(v).Err?
    ensures r.Err? ==> r.error == ReposNotMappings
    ensures r.Ok? ==>
              && |r.value| == |RepoEntries(v).value|
              && forall j :: 0 <= j < |r.value| ==> r.value[j] == Prefixed(RepoEntries(v).value[j])
  {
    match v
    case List(xs) =>
      r := CollectListed(xs);
    case Str(s) =>
      return if s == "" then Ok([]) else Err(ReposNotMappings);
    case Dict(m) =>
      return if m == map[] then Ok([]) else Err(ReposNotMappings);
    case _ =>
      return Err(ReposNotMappings);
  }

  /** The loop over a listed `repos` value: each entry must be a mapping. */
  method CollectListed(xs: seq<Value>) returns (r: Result<seq<Dict>, CompileError>)
    ensures r.Err? <==> exists j :: 0 <= j < |xs| && !xs[j].Dict?
    ensures r.Err? ==> r.error == ReposNotMappings
    ensures r.Ok? ==>
              && |r.value| == |xs|
              && forall j :: 0 <= j < |xs| ==> xs[j] == Dict(xs[j].entries) && r.value[j] == Prefixed(xs[j].entries)
  {
    var repos: seq<Dict> := [];
    var i := 0;
    while i < |xs|
      invariant 0 <= i <= |xs|
      invariant forall j :: 0 <= j < i ==> xs[j].Dict?
      invariant |repos| == i
      invariant forall j :: 0 <= j < i ==> repos[j] == Prefixed(xs[j].entries)
    {
      if !xs[i].Dict? {
        return Err(ReposNotMappings);
      }
      var newRepo := PrefixRepo(xs[i].entries);
      repos := repos + [newRepo];
      i := i + 1;
    }
    return Ok(repos);
  }

  class ResultsChecker {
    /** The selected settings preset: block names with their bodies, in document order. */
    var preset: seq<(string, Value)>
    /** The `created__gt` bound of every query. */
    const date: string

    constructor (preset: seq<(string, Value)>, date: string)
      ensures this.preset == preset && this.date == date
    {
      this.preset := preset;
      this.date := date;
    }

    /**
     * `_parse_block_settings`: the filters of one block, and the block as
     * its items are left once their `repos` lists have been popped.
     */
    method ParseBlockSettings(block: Value, kind: string, state: string)
      returns (r: Result<seq<Dict>, CompileError>, after: Value)
      ensures r == BlockFilters(block, kind, state, date)
      ensures after == BlockAfter(block)
    {
      var baseParams := BaseFilter(kind, state, date);
      if !Truthy(block) {
        assert block.List? ==> block.items == [];
        return Ok([baseParams]), block;
      }
      if !block.List? {
        return Err(NotAList), block;
      }
      ghost var xs := block.items;
      var items := block.items;
      var queryParams: seq<Dict> := [];
      var i := 0;
      while i < |items|
        invariant 0 <= i <= |items| == |xs|
        invariant forall k :: 0 <= k < |xs| ==> items[k] == if k < i then PoppedItem(xs[k]) else xs[k]
        invariant !AnyRejected(xs[..i])
        invariant ItemsFilters(baseParams, xs[..i]) == Ok(queryParams)
      {
        var itemParams, popped := ParseItem(baseParams, items[i]);
        items := items[i := popped];
        if itemParams.Err? {
          FirstRejectedItem(baseParams, xs, i);
          ItemsAfterAt(xs, i);
          return itemParams, List(items);
        }
        AcceptedItem(baseParams, xs, i, queryParams);
        queryParams := queryParams + itemParams.value;
        i := i + 1;
      }
      assert xs[..i] == xs;
      ReposPopped(block);
      return Ok(queryParams), List(items);
    }

    /**
     * The body of the item loop of `_parse_block_settings`: the filters of
     * one item, and the item once its `repos` list has been popped.
     */
    method ParseItem(baseParams: Dict, item: Value) returns (r: Result<seq<Dict>, CompileError>, popped: Value)
      ensures r == ItemFilters(baseParams, item)
      ensures popped == PoppedItem(item)
    {
      if !item.Dict? {
        return Err(ItemNotAMapping), item;
      }
      var entries, repos := PopRepos(item);
      popped := Dict(entries);
      if repos.Err? {
        return repos, popped;
      }
      var itemBaseParams := Update(baseParams, entries);
      var queryParams := EmitFilters(itemBaseParams, repos.value);
      ItemFiltersOf(baseParams, item, repos.value);
      r := Ok(queryParams);
    }

    /** `item.pop('repos')` and the namespacing of its entries. */
    method PopRepos(item: Value) returns (entries: Dict, repos: Result<seq<Dict>, CompileError>)
      requires item.Dict?
      ensures entries == Fields(item)
      ensures repos.Err? <==> ItemRejected(item)
      ensures repos.Err? ==> repos == Err(ReposNotMappings)
      ensures repos.Ok? ==>
                && |repos.value| == RepoCount(item)
                && forall n :: 0 <= n < |repos.value| ==> repos.value[n] == Prefixed(RepoOf(item, n))
    {
      entries := item.entries;
      if ReposKey in entries {
        var listed := entries[ReposKey];
        entries := entries - {ReposKey};
        repos := CollectRepos(listed);
      } else {
        assert entries - {ReposKey} == entries;
        repos := Ok([]);
      }
    }

    /** The emitting loop: one filter per namespaced entry, or the merged item alone. */
    method EmitFilters(itemBaseParams: Dict, repos: seq<Dict>) returns (queryParams: seq<Dict>)
      ensures repos == [] ==> queryParams == [itemBaseParams]
      ensures repos != [] ==> queryParams == seq(|repos|, n requires 0 <= n < |repos| => itemBaseParams + repos[n])
    {
      if repos == [] {
        return [itemBaseParams];
      }
      queryParams := [];
      var j := 0;
      while j < |repos|
        invariant 0 <= j <= |repos|
        invariant queryParams == seq(j, n requires 0 <= n < j => itemBaseParams + repos[n])
      {
        queryParams := queryParams + [itemBaseParams + repos[j]];
        j := j + 1;
      }
    }

    /**
     * The body of the loop of `_parse_settings`: the block's filters by its
     * name, or the error an unknown name raises before the block is read.
     */
    method ParseNamedBlock(name: string, body: Value) returns (r: Result<seq<Dict>, CompileError>, after: Value)
      ensures r == NamedBlockFilters(name, body, date)
      ensures after == if BlockKind(name).Some? then BlockAfter(body) else body
    {
      if name == "tests" {
        r, after := ParseBlockSettings(body, "test", "done");
      } else if name == "kbuilds" {
        r, after := ParseBlockSettings(body, "kbuild", "done");
      } else if name == "regressions" {
        r, after := ParseBlockSettings(body, "regression", "done");
      } else {
        return Err(NotImplemented(name)), body;
      }
    }

    /**
     * `_parse_settings`: every block of the preset in order, its filters
     * appended to the result; an unknown block name raises. The preset is
     * left as its blocks' items are left, on every exit.
     */
    method ParseSettings() returns (r: Result<seq<Dict>, CompileError>)
      modifies this
      ensures r == SettingsFilters(old(preset), date)
      ensures preset == PresetAfter(old(preset))
    {
      var blocks;
      r, blocks := ParseBlocks(preset);
      preset := blocks;
    }

    /** The loop of `_parse_settings` over the blocks `p`, and the blocks it leaves. */
    method ParseBlocks(p: seq<(string, Value)>) returns (r: Result<seq<Dict>, CompileError>, blocks: seq<(string, Value)>)
      ensures r == SettingsFilters(p, date)
      ensures blocks == PresetAfter(p)
    {
      blocks := p;
      var params: seq<Dict> := [];
      var i := 0;
      while i < |blocks|
        invariant 0 <= i <= |blocks| == |p|
        invariant forall k :: 0 <= k < |p| ==> blocks[k] == if k < i then (p[k].0, BlockAfter(p[k].1)) else p[k]
        invariant !PresetRejected(p[..i])
        invariant SettingsFilters(p[..i], date) == Ok(params)
      {
        var (name, body) := blocks[i];
        var res, after := ParseNamedBlock(name, body);
        blocks := blocks[i := (name, after)];
        if res.Err? {
          if BlockKind(name).Some? {
            BlockFiltersErr(body, BlockKind(name).value, DoneState, date);
          }
          FirstRejectedBlock(p, i, date);
          PresetAfterAt(p, i);
          return res, blocks;
        }
        AcceptedBlock(p, i, date, params);
        params := params + res.value;
        i := i + 1;
      }
      assert p[..i] == p;
      PresetPopped(p);
      return Ok(params), blocks;
    }
  }

  /** Links the loop's emitted filters with the specification of one item. */
  lemma ItemFiltersOf(base: Dict, item: Value, repos: seq<Dict>)
    requires item.Dict? && !ItemRejected(item)
    requires |repos| == RepoCount(item)
    requires forall n :: 0 <= n < |repos| ==> repos[n] == Prefixed(RepoOf(item, n))
    ensures repos == [] ==> ItemFilters(base, item) == Ok([base + Fields(item)])
    ensures repos != [] ==>
              ItemFilters(base, item) == Ok(seq(|repos|, n requires 0 <= n < |repos| => base + Fields(item) + repos[n]))
  {
    ItemFiltersShape(base, item);
    if repos != [] {
      var fs := ItemFilters(base, item).value;
      var gs := seq(|repos|, n requires 0 <= n < |repos| => base + Fields(item) + repos[n]);
      assert |fs| == |gs|;
      forall n | 0 <= n < |gs| ensures fs[n] == gs[n] {
        assert fs[n] == base + Fields(item) + Prefixed(RepoOf(item, n));
      }
      assert fs == gs;
    }
  }
}
