/**
 * The query compiler of the results checker: a settings preset is turned
 * into an ordered list of store query filters (string-keyed maps).
 *
 * This module holds the specification functions and the lemmas about them;
 * the loops that compute the same values are in module ResultsChecker.
 */
module QueryCompiler {
  import opened Wrappers
  import opened Values

  /** Why compiling a preset raises instead of returning filters. */
  datatype CompileError =
    | NotAList                     // a truthy block that is not a list
    | ItemNotAMapping              // a block item that is not a mapping
    | ReposNotMappings             // a `repos` value whose entries are not mappings
    | NotImplemented(name: string) // a block name outside tests/kbuilds/regressions (the source's message omits the name)

  const ReposKey: string := "repos"
  const RevisionPrefix: string := "data.kernel_revision."
  const DoneState: string := "done"

  /** The filter every item of a block starts from. */
  function BaseFilter(kind: string, state: string, date: string): (r: Dict)
    ensures r.Keys == {"kind", "state", "created__gt"}
    ensures r["kind"] == Str(kind) && r["state"] == Str(state) && r["created__gt"] == Str(date)
  {
    map["kind" := Str(kind), "state" := Str(state), "created__gt" := Str(date)]
  }

  /** A `repos` entry with every key namespaced under `data.kernel_revision.`. */
  function Prefixed(repo: Dict): (r: Dict)
    ensures r.Keys == set k | k in repo :: RevisionPrefix + k
    ensures forall k :: k in repo ==> r[RevisionPrefix + k] == repo[k]
  {
    PrefixInjective();
    map k | k in repo :: RevisionPrefix + k := repo[k]
  }

  /** Distinct keys stay distinct once namespaced. */
  lemma PrefixInjective()
    ensures forall a: string, b: string :: RevisionPrefix + a == RevisionPrefix + b ==> a == b
  {
    forall a: string, b: string | RevisionPrefix + a == RevisionPrefix + b
      ensures a == b
    {
      assert a == (RevisionPrefix + a)[|RevisionPrefix|..];
      assert b == (RevisionPrefix + b)[|RevisionPrefix|..];
    }
  }

  /**
   * The entries that `for repo in item.pop('repos')` visits, when each of
   * them is a mapping. Iterating an empty string or an empty mapping visits
   * nothing; any other non-list value, or a list holding a non-mapping, makes
   * the loop raise.
   */
  function RepoEntries(v: Value): (r: Result<seq<Dict>, CompileError>)
    ensures r.Ok? <==> (v.List? && forall i :: 0 <= i < |v.items| ==> v.items[i].Dict?)
                       || v == Str("") || v == Dict(map[])
    ensures r.Ok? && v.List? ==>
              && |r.value| == |v.items|
              && forall i :: 0 <= i < |v.items| ==> v.items[i] == Dict(r.value[i])
    ensures r.Ok? && !v.List? ==> r.value == []
    ensures r.Err? ==> r.error == ReposNotMappings
  {
    match v
    case List(xs) =>
      if forall i :: 0 <= i < |xs| ==> xs[i].Dict?
      then Ok(seq(|xs|, i requires 0 <= i < |xs| => xs[i].entries))
      else Err(ReposNotMappings)
    case Str(s) => if s == "" then Ok([]) else Err(ReposNotMappings)
    case Dict(m) => if m == map[] then Ok([]) else Err(ReposNotMappings)
    case _ => Err(ReposNotMappings)
  }

  /** True when compiling this block item raises. */
  predicate ItemRejected(item: Value)
  {
    !item.Dict? || (ReposKey in item.entries && RepoEntries(item.entries[ReposKey]).Err?)
  }

  /** The filters one block item yields. */
  function ItemFilters(base: Dict, item: Value): (r: Result<seq<Dict>, CompileError>)
    ensures r.Err? <==> ItemRejected(item)
    ensures r.Ok? ==> |r.value| >= 1
  {
    if !item.Dict? then Err(ItemNotAMapping)
    else
      var merged := base + (item.entries - {ReposKey});
      if ReposKey !in item.entries then Ok([merged])
      else
        match RepoEntries(item.entries[ReposKey])
        case Err(e) => Err(e)
        case Ok(repos) =>
          if repos == [] then Ok([merged])
          else Ok(seq(|repos|, j requires 0 <= j < |repos| => merged + Prefixed(repos[j])))
  }

  /** The item as it is left after `item.pop('repos')`. */
  function PoppedItem(item: Value): (r: Value)
    ensures r.Dict? <==> item.Dict?
    ensures r.Dict? ==> r.entries == item.entries - {ReposKey}
    ensures !r.Dict? ==> r == item
  {
    if item.Dict? && ReposKey in item.entries then Dict(item.entries - {ReposKey}) else item
  }

  /** True when some item of `items` is rejected. */
  predicate AnyRejected(items: seq<Value>)
  {
    exists i :: 0 <= i < |items| && ItemRejected(items[i])
  }

  /** Two compile results one after the other: the first error wins, filters concatenate. */
  function Then(a: Result<seq<Dict>, CompileError>, b: Result<seq<Dict>, CompileError>): (r: Result<seq<Dict>, CompileError>)
    ensures r.Ok? <==> a.Ok? && b.Ok?
    ensures r.Ok? ==> r.value == a.value + b.value
    ensures a.Err? ==> r == a
    ensures a.Ok? && b.Err? ==> r == b
  {
    match a
    case Err(_) => a
    case Ok(x) =>
      match b
      case Err(_) => b
      case Ok(y) => Ok(x + y)
  }

  /** The filters of a sequence of items, stopping at the first rejected item. */
  function ItemsFilters(base: Dict, items: seq<Value>): Result<seq<Dict>, CompileError>
    decreases |items|
  {
    if items == [] then Ok([])
    else Then(ItemsFilters(base, items[..|items| - 1]), ItemFilters(base, items[|items| - 1]))
  }

  /**
   * The items after compilation: every item up to and including the first
   * rejected one has lost its `repos` key; the items after it are untouched.
   */
  function ItemsAfter(items: seq<Value>): (r: seq<Value>)
    ensures |r| == |items|
  {
    seq(|items|, i requires 0 <= i < |items| =>
      if AnyRejected(items[..i]) then items[i] else PoppedItem(items[i]))
  }

  /** True when compiling this block raises. */
  predicate BlockRejected(block: Value)
  {
    Truthy(block) && (!block.List? || AnyRejected(block.items))
  }

  /** `_parse_block_settings`: the filters of one block. */
  function BlockFilters(block: Value, kind: string, state: string, date: string): Result<seq<Dict>, CompileError>
  {
    var base := BaseFilter(kind, state, date);
    if !Truthy(block) then Ok([base])
    else if !block.List? then Err(NotAList)
    else ItemsFilters(base, block.items)
  }

  /** The block after `_parse_block_settings` has popped the `repos` keys. */
  function BlockAfter(block: Value): Value
  {
    if block.List? then List(ItemsAfter(block.items)) else block
  }

  /** The closed vocabulary of block names and the record kind each selects. */
  function BlockKind(name: string): (r: Option<string>)
    ensures r.Some? <==> name in {"tests", "kbuilds", "regressions"}
  {
    if name == "tests" then Some("test")
    else if name == "kbuilds" then Some("kbuild")
    else if name == "regressions" then Some("regression")
    else None
  }

  /** The filters one named block of a preset contributes. */
  function NamedBlockFilters(name: string, body: Value, date: string): Result<seq<Dict>, CompileError>
  {
    match BlockKind(name)
    case None => Err(NotImplemented(name))
    case Some(kind) => BlockFilters(body, kind, DoneState, date)
  }

  /** `_parse_settings`: the filters of a whole preset, block by block. */
  function SettingsFilters(preset: seq<(string, Value)>, date: string): Result<seq<Dict>, CompileError>
    decreases |preset|
  {
    if preset == [] then Ok([])
    else
      Then(SettingsFilters(preset[..|preset| - 1], date),
           NamedBlockFilters(preset[|preset| - 1].0, preset[|preset| - 1].1, date))
  }

  /** True when compiling the preset raises. */
  predicate PresetRejected(preset: seq<(string, Value)>)
  {
    exists i :: 0 <= i < |preset| && (BlockKind(preset[i].0).None? || BlockRejected(preset[i].1))
  }

  /**
   * The preset after `_parse_settings`: the blocks up to and including the
   * first one that raises have been through `_parse_block_settings`; the
   * rest are untouched.
   */
  function PresetAfter(preset: seq<(string, Value)>): (r: seq<(string, Value)>)
    ensures |r| == |preset|
  {
    seq(|preset|, i requires 0 <= i < |preset| =>
      if PresetRejected(preset[..i]) || BlockKind(preset[i].0).None? then preset[i]
      else (preset[i].0, BlockAfter(preset[i].1)))
  }

  // ---------------------------------------------------------------------
  // Count, order and precedence of the emitted filters
  // ---------------------------------------------------------------------

  /** The item's own fields, without the `repos` list. */
  function Fields(item: Value): Dict
    requires item.Dict?
  {
    item.entries - {ReposKey}
  }

  /** The number of repos entries an accepted item lists (0 when it has none). */
  function RepoCount(item: Value): nat
  {
    if item.Dict? && ReposKey in item.entries && RepoEntries(item.entries[ReposKey]).Ok?
    then |RepoEntries(item.entries[ReposKey]).value|
    else 0
  }

  /** The j-th repos entry of an item, or the empty mapping when it lists none. */
  function RepoOf(item: Value, j: nat): Dict
  {
    if j < RepoCount(item) then RepoEntries(item.entries[ReposKey]).value[j] else map[]
  }

  /** max(1, number of repos entries): how many filters an accepted item yields. */
  function Width(item: Value): nat
  {
    if RepoCount(item) == 0 then 1 else RepoCount(item)
  }

  /** The sum of the widths of a sequence of items. */
  function TotalWidth(items: seq<Value>): nat
    decreases |items|
  {
    if items == [] then 0 else TotalWidth(items[..|items| - 1]) + Width(items[|items| - 1])
  }

  /**
   * An accepted item yields max(1, n) filters for its n repos entries, the
   * j-th being the base, overridden by the item's fields, overridden by the
   * j-th entry namespaced under `data.kernel_revision.`; with no `repos` key
   * or an empty list it yields the single filter base + fields.
   */
  lemma ItemFiltersShape(base: Dict, item: Value)
    requires item.Dict? && !ItemRejected(item)
    ensures ItemFilters(base, item).Ok?
    ensures |ItemFilters(base, item).value| == Width(item)
    ensures forall j :: 0 <= j < Width(item) ==>
              ItemFilters(base, item).value[j] == base + Fields(item) + Prefixed(RepoOf(item, j))
    ensures RepoCount(item) == 0 ==> ItemFilters(base, item).value == [base + Fields(item)]
  {
    if RepoCount(item) > 0 {
      RepoItemShape(base, item);
    } else {
      PlainItemShape(base, item);
      PlainRepoOf(item);
      var merged := base + Fields(item);
      assert merged + map[] == merged;
    }
  }

  lemma RepoItemShape(base: Dict, item: Value)
    requires item.Dict? && !ItemRejected(item) && RepoCount(item) > 0
    ensures ItemFilters(base, item).Ok?
    ensures |ItemFilters(base, item).value| == RepoCount(item)
    ensures forall j :: 0 <= j < RepoCount(item) ==>
              ItemFilters(base, item).value[j] == base + Fields(item) + Prefixed(RepoOf(item, j))
  {
    var repos := RepoEntries(item.entries[ReposKey]).value;
    var r := ItemFilters(base, item);
    assert r.value == seq(|repos|, j requires 0 <= j < |repos| => base + Fields(item) + Prefixed(repos[j]));
  }

  lemma PlainItemShape(base: Dict, item: Value)
    requires item.Dict? && !ItemRejected(item) && RepoCount(item) == 0
    ensures ItemFilters(base, item) == Ok([base + Fields(item)])
  {
  }

  lemma PlainRepoOf(item: Value)
    requires RepoCount(item) == 0
    ensures Prefixed(RepoOf(item, 0)) == map[]
  {
    assert RepoOf(item, 0) == map[];
    PrefixedEmpty();
  }

  lemma PrefixedEmpty()
    ensures Prefixed(map[]) == map[]
  {
  }

  /** A block whose items are all accepted yields the sum of their widths. */
  lemma {:induction false} FilterCount(base: Dict, items: seq<Value>)
    requires !AnyRejected(items)
    ensures ItemsFilters(base, items).Ok?
    ensures |ItemsFilters(base, items).value| == TotalWidth(items)
    decreases |items|
  {
    if items != [] {
      var init := items[..|items| - 1];
      assert !AnyRejected(init) by {
        forall i | 0 <= i < |init| ensures !ItemRejected(init[i]) {
          assert init[i] == items[i];
        }
      }
      FilterCount(base, init);
      var last := items[|items| - 1];
      assert !ItemRejected(last);
      assert last.Dict?;
      ItemFiltersShape(base, last);
    }
  }

  /** Compilation fails exactly when some item is rejected. */
  lemma {:induction false} ItemsFiltersErr(base: Dict, items: seq<Value>)
    ensures ItemsFilters(base, items).Err? <==> AnyRejected(items)
    decreases |items|
  {
    if items != [] {
      var init := items[..|items| - 1];
      ItemsFiltersErr(base, init);
      assert forall i :: 0 <= i < |init| ==> items[i] == init[i];
    }
  }

  /** `Then` is associative. */
  lemma ThenAssoc(a: Result<seq<Dict>, CompileError>, b: Result<seq<Dict>, CompileError>, c: Result<seq<Dict>, CompileError>)
    ensures Then(Then(a, b), c) == Then(a, Then(b, c))
  {
    if a.Ok? && b.Ok? && c.Ok? {
      assert a.value + b.value + c.value == a.value + (b.value + c.value);
    }
  }

  /**
   * Order: the filters of `xs + ys` are those of `xs` followed by those of
   * `ys`, and the first rejected item decides the error.
   */
  lemma {:induction false} ItemsFiltersAppend(base: Dict, xs: seq<Value>, ys: seq<Value>)
    ensures ItemsFilters(base, xs + ys) == Then(ItemsFilters(base, xs), ItemsFilters(base, ys))
    decreases |ys|
  {
    if ys == [] {
      assert xs + ys == xs;
      if ItemsFilters(base, xs).Ok? {
        assert ItemsFilters(base, xs).value + [] == ItemsFilters(base, xs).value;
      }
    } else {
      var ys' := ys[..|ys| - 1];
      assert (xs + ys)[..|xs + ys| - 1] == xs + ys';
      assert (xs + ys)[|xs + ys| - 1] == ys[|ys| - 1];
      ItemsFiltersAppend(base, xs, ys');
      ThenAssoc(ItemsFilters(base, xs), ItemsFilters(base, ys'), ItemFilters(base, ys[|ys| - 1]));
    }
  }

  /** A namespaced key is never `repos`. */
  lemma PrefixedHasNoRepos(repo: Dict)
    ensures ReposKey !in Prefixed(repo)
  {
    forall k | k in repo ensures RevisionPrefix + k != ReposKey {
      assert |RevisionPrefix + k| > |ReposKey|;
    }
  }

  /**
   * No emitted filter contains the key `repos`, and every filter keeps every
   * key of the base filter.
   */
  lemma {:induction false} FiltersWithoutRepos(base: Dict, items: seq<Value>)
    requires ReposKey !in base
    requires ItemsFilters(base, items).Ok?
    ensures forall f :: f in ItemsFilters(base, items).value ==> ReposKey !in f && base.Keys <= f.Keys
    decreases |items|
  {
    if items != [] {
      var init := items[..|items| - 1];
      FiltersWithoutRepos(base, init);
      var last := items[|items| - 1];
      var fs := ItemFilters(base, last).value;
      forall f | f in fs ensures ReposKey !in f && base.Keys <= f.Keys {
        var j :| 0 <= j < |fs| && fs[j] == f;
        ItemFiltersShape(base, last);
        PrefixedHasNoRepos(RepoOf(last, j));
      }
    }
  }

  /** No key of `d` is namespaced under `data.kernel_revision.`. */
  predicate NoRevisionKey(d: Dict)
  {
    forall k :: k in d ==> !(RevisionPrefix <= k)
  }

  /** The filter `f` keeps the value of every base key that the item's own fields do not name. */
  predicate KeepsBase(base: Dict, item: Value, f: Dict)
    requires item.Dict?
  {
    forall k :: k in base && k !in Fields(item) ==> k in f && f[k] == base[k]
  }

  /** Every key of a namespaced entry starts with `data.kernel_revision.`. */
  lemma PrefixedKeysNamespaced(repo: Dict)
    ensures forall k :: k in Prefixed(repo) ==> RevisionPrefix <= k
  {
    forall k | k in Prefixed(repo) ensures RevisionPrefix <= k {
      var key :| key in repo && k == RevisionPrefix + key;
      assert k[..|RevisionPrefix|] == RevisionPrefix;
    }
  }

  /** Every filter of an accepted item keeps the base values its fields do not override. */
  lemma ItemKeepsBase(base: Dict, item: Value)
    requires item.Dict? && !ItemRejected(item) && NoRevisionKey(base)
    ensures forall f :: f in ItemFilters(base, item).value ==> KeepsBase(base, item, f)
  {
    var fs := ItemFilters(base, item).value;
    ItemFiltersShape(base, item);
    forall f | f in fs ensures KeepsBase(base, item, f) {
      var j :| 0 <= j < |fs| && fs[j] == f;
      PrefixedKeysNamespaced(RepoOf(item, j));
    }
  }

  /**
   * Every filter of a list of items comes from one of the items and keeps
   * each base value that item's own fields do not override.
   */
  lemma {:induction false} FiltersKeepBase(base: Dict, items: seq<Value>)
    requires NoRevisionKey(base)
    requires ItemsFilters(base, items).Ok?
    ensures forall f :: f in ItemsFilters(base, items).value ==>
              exists i :: 0 <= i < |items| && items[i].Dict? && KeepsBase(base, items[i], f)
    decreases |items|
  {
    if items != [] {
      var init := items[..|items| - 1];
      var last := items[|items| - 1];
      FiltersKeepBase(base, init);
      ItemKeepsBase(base, last);
      forall f | f in ItemsFilters(base, items).value
        ensures exists i :: 0 <= i < |items| && items[i].Dict? && KeepsBase(base, items[i], f)
      {
        if f in ItemsFilters(base, init).value {
          var i :| 0 <= i < |init| && init[i].Dict? && KeepsBase(base, init[i], f);
          assert items[i] == init[i];
        } else {
          assert KeepsBase(base, items[|items| - 1], f);
        }
      }
    }
  }

  /**
   * The filters of a block: the base filter itself for a falsy block, and
   * otherwise filters that keep the block's kind, state and date wherever
   * the item's own fields do not override them.
   */
  lemma BlockKeepsBase(block: Value, kind: string, state: string, date: string)
    requires BlockFilters(block, kind, state, date).Ok?
    ensures forall f :: f in BlockFilters(block, kind, state, date).value ==>
              || (!Truthy(block) && f == BaseFilter(kind, state, date))
              || (block.List? && exists i :: 0 <= i < |block.items| && block.items[i].Dict?
                                             && KeepsBase(BaseFilter(kind, state, date), block.items[i], f))
  {
    if Truthy(block) {
      var base := BaseFilter(kind, state, date);
      forall k | k in base ensures !(RevisionPrefix <= k) {
        assert |k| < |RevisionPrefix|;
      }
      FiltersKeepBase(base, block.items);
    }
  }

  /** A falsy block (absent, empty list, empty mapping, ...) yields exactly the base filter. */
  lemma FalsyBlock(block: Value, kind: string, state: string, date: string)
    requires !Truthy(block)
    ensures BlockFilters(block, kind, state, date) == Ok([BaseFilter(kind, state, date)])
  {
  }

  /** `_parse_block_settings` fails exactly when the block is rejected. */
  lemma BlockFiltersErr(block: Value, kind: string, state: string, date: string)
    ensures BlockFilters(block, kind, state, date).Err? <==> BlockRejected(block)
  {
    if Truthy(block) && block.List? {
      ItemsFiltersErr(BaseFilter(kind, state, date), block.items);
    }
  }

  /** After a successful compile every item of the block has lost its `repos` key. */
  lemma ReposPopped(block: Value)
    requires !BlockRejected(block) && block.List?
    ensures forall i :: 0 <= i < |block.items| ==>
              BlockAfter(block).items[i] == PoppedItem(block.items[i])
              && ReposKey !in BlockAfter(block).items[i].entries
  {
    var xs := block.items;
    forall i | 0 <= i < |xs|
      ensures BlockAfter(block).items[i] == PoppedItem(xs[i])
      ensures ReposKey !in BlockAfter(block).items[i].entries
    {
      assert forall k :: 0 <= k < i ==> xs[..i][k] == xs[k];
      assert !ItemRejected(xs[i]);
    }
  }

  // ---------------------------------------------------------------------
  // Whole presets
  // ---------------------------------------------------------------------

  /** The three block names select their record kind, all in state `done`; any other name raises. */
  lemma NamedBlockKinds(name: string, body: Value, date: string)
    ensures name == "tests" ==> NamedBlockFilters(name, body, date) == BlockFilters(body, "test", "done", date)
    ensures name == "kbuilds" ==> NamedBlockFilters(name, body, date) == BlockFilters(body, "kbuild", "done", date)
    ensures name == "regressions" ==> NamedBlockFilters(name, body, date) == BlockFilters(body, "regression", "done", date)
    ensures name !in {"tests", "kbuilds", "regressions"} ==> NamedBlockFilters(name, body, date) == Err(NotImplemented(name))
  {
  }

  /** Blocks are compiled in preset order and their filters concatenated. */
  lemma {:induction false} SettingsFiltersAppend(p: seq<(string, Value)>, q: seq<(string, Value)>, date: string)
    ensures SettingsFilters(p + q, date) == Then(SettingsFilters(p, date), SettingsFilters(q, date))
    decreases |q|
  {
    if q == [] {
      assert p + q == p;
      if SettingsFilters(p, date).Ok? {
        assert SettingsFilters(p, date).value + [] == SettingsFilters(p, date).value;
      }
    } else {
      var q' := q[..|q| - 1];
      assert (p + q)[..|p + q| - 1] == p + q';
      assert (p + q)[|p + q| - 1] == q[|q| - 1];
      SettingsFiltersAppend(p, q', date);
      var last := q[|q| - 1];
      ThenAssoc(SettingsFilters(p, date), SettingsFilters(q', date), NamedBlockFilters(last.0, last.1, date));
    }
  }

  /** A one-block preset compiles to that block's filters. */
  lemma SingleBlockPreset(name: string, body: Value, date: string)
    ensures SettingsFilters([(name, body)], date) == NamedBlockFilters(name, body, date)
  {
    assert [(name, body)][..0] == [];
    var r := NamedBlockFilters(name, body, date);
    if r.Ok? {
      assert [] + r.value == r.value;
    }
  }

  /** Compiling a preset fails exactly when one of its blocks is unknown or rejected. */
  lemma {:induction false} SettingsFiltersErr(p: seq<(string, Value)>, date: string)
    ensures SettingsFilters(p, date).Err? <==> PresetRejected(p)
    decreases |p|
  {
    if p != [] {
      var init := p[..|p| - 1];
      var last := p[|p| - 1];
      SettingsFiltersErr(init, date);
      assert forall i :: 0 <= i < |init| ==> p[i] == init[i];
      match BlockKind(last.0)
      case None =>
      case Some(kind) => BlockFiltersErr(last.1, kind, DoneState, date);
    }
  }

  /**
   * A block name outside the closed vocabulary, reached after only accepted
   * blocks, raises `NotImplementedError`, whatever follows it.
   */
  lemma UnknownBlockRaises(p: seq<(string, Value)>, i: nat, date: string)
    requires i < |p| && BlockKind(p[i].0).None? && !PresetRejected(p[..i])
    ensures SettingsFilters(p, date) == Err(NotImplemented(p[i].0))
  {
    assert p == p[..i] + [p[i]] + p[i + 1..];
    SettingsFiltersAppend(p[..i] + [p[i]], p[i + 1..], date);
    SettingsFiltersAppend(p[..i], [p[i]], date);
    SettingsFiltersErr(p[..i], date);
    SingleBlockPreset(p[i].0, p[i].1, date);
  }

  /**
   * After a successful compile every block of the preset has been through
   * `_parse_block_settings`, so no item of any list block keeps `repos`.
   */
  lemma PresetPopped(p: seq<(string, Value)>)
    requires !PresetRejected(p)
    ensures forall i :: 0 <= i < |p| ==> PresetAfter(p)[i] == (p[i].0, BlockAfter(p[i].1))
    ensures forall i, k :: 0 <= i < |p| && PresetAfter(p)[i].1.List? && 0 <= k < |PresetAfter(p)[i].1.items| ==>
              PresetAfter(p)[i].1.items[k].Dict? && ReposKey !in PresetAfter(p)[i].1.items[k].entries
  {
    forall i | 0 <= i < |p|
      ensures PresetAfter(p)[i] == (p[i].0, BlockAfter(p[i].1))
    {
      assert forall j :: 0 <= j < i ==> p[..i][j] == p[j];
      assert !(BlockKind(p[i].0).None? || BlockRejected(p[i].1));
    }
    forall i, k | 0 <= i < |p| && PresetAfter(p)[i].1.List? && 0 <= k < |PresetAfter(p)[i].1.items|
      ensures PresetAfter(p)[i].1.items[k].Dict? && ReposKey !in PresetAfter(p)[i].1.items[k].entries
    {
      var body := p[i].1;
      assert !BlockRejected(body);
      if Truthy(body) {
        ReposPopped(body);
      }
    }
  }

  /** A repos entry naming only a tree becomes the single `data.kernel_revision.tree` filter. */
  lemma TreeEntryPrefixed(tree: string)
    ensures Prefixed(map["tree" := Str(tree)]) == map["data.kernel_revision.tree" := Str(tree)]
  {
    var repo := map["tree" := Str(tree)];
    var key := RevisionPrefix + "tree";
    assert key == "data.kernel_revision.tree";
    assert (set k | k in repo :: RevisionPrefix + k) == {key};
  }

  /** A popped item lists no repos, so it yields exactly one filter. */
  lemma PoppedItemWidth(item: Value)
    requires !ItemRejected(item)
    ensures !ItemRejected(PoppedItem(item)) && Width(PoppedItem(item)) == 1
  {
  }

  /** The total width of items that each yield one filter is their number. */
  lemma {:induction false} UnitWidths(items: seq<Value>)
    requires forall i :: 0 <= i < |items| ==> Width(items[i]) == 1
    ensures TotalWidth(items) == |items|
    decreases |items|
  {
    if items != [] {
      UnitWidths(items[..|items| - 1]);
    }
  }

  /**
   * `pop` makes compilation one-shot: compiling the same block object a
   * second time ignores the `repos` lists it had and yields exactly one
   * filter per item.
   */
  lemma RecompiledBlock(base: Dict, items: seq<Value>)
    requires !AnyRejected(items)
    ensures !AnyRejected(ItemsAfter(items))
    ensures ItemsFilters(base, ItemsAfter(items)).Ok?
    ensures |ItemsFilters(base, ItemsAfter(items)).value| == |items|
  {
    var after := ItemsAfter(items);
    forall i | 0 <= i < |items|
      ensures after[i] == PoppedItem(items[i])
      ensures !ItemRejected(after[i]) && Width(after[i]) == 1
    {
      assert forall k :: 0 <= k < i ==> items[..i][k] == items[k];
      assert !ItemRejected(items[i]);
      PoppedItemWidth(items[i]);
    }
    FilterCount(base, after);
    UnitWidths(after);
  }

  // ---------------------------------------------------------------------
  // Where compilation stops
  // ---------------------------------------------------------------------

  /** A one-item list yields that item's filters. */
  lemma ItemsFiltersSingle(base: Dict, item: Value)
    ensures ItemsFilters(base, [item]) == ItemFilters(base, item)
  {
    assert [item][..0] == [];
    if ItemFilters(base, item).Ok? {
      assert [] + ItemFilters(base, item).value == ItemFilters(base, item).value;
    }
  }

  /** The first rejected item decides the error of its block. */
  lemma FirstRejectedItem(base: Dict, items: seq<Value>, i: nat)
    requires i < |items| && !AnyRejected(items[..i]) && ItemRejected(items[i])
    ensures ItemsFilters(base, items) == ItemFilters(base, items[i])
  {
    assert items == items[..i] + [items[i]] + items[i + 1..];
    ItemsFiltersAppend(base, items[..i] + [items[i]], items[i + 1..]);
    ItemsFiltersAppend(base, items[..i], [items[i]]);
    ItemsFiltersErr(base, items[..i]);
    ItemsFiltersSingle(base, items[i]);
  }

  /** `pop` has reached every item up to and including the first rejected one, and no further. */
  lemma ItemsAfterAt(items: seq<Value>, i: nat)
    requires i < |items| && !AnyRejected(items[..i]) && ItemRejected(items[i])
    ensures forall k :: 0 <= k < |items| ==> ItemsAfter(items)[k] == if k <= i then PoppedItem(items[k]) else items[k]
  {
    forall k | 0 <= k < |items|
      ensures ItemsAfter(items)[k] == if k <= i then PoppedItem(items[k]) else items[k]
    {
      if k <= i {
        assert forall j :: 0 <= j < k ==> items[..k][j] == items[..i][j];
      } else {
        assert items[..k][i] == items[i];
      }
    }
  }

  /** The first unknown or rejected block decides the error of the preset. */
  lemma FirstRejectedBlock(p: seq<(string, Value)>, i: nat, date: string)
    requires i < |p| && !PresetRejected(p[..i])
    requires BlockKind(p[i].0).None? || BlockRejected(p[i].1)
    ensures SettingsFilters(p, date) == NamedBlockFilters(p[i].0, p[i].1, date)
    ensures NamedBlockFilters(p[i].0, p[i].1, date).Err?
  {
    assert p == p[..i] + [p[i]] + p[i + 1..];
    SettingsFiltersAppend(p[..i] + [p[i]], p[i + 1..], date);
    SettingsFiltersAppend(p[..i], [p[i]], date);
    SettingsFiltersErr(p[..i], date);
    SingleBlockPreset(p[i].0, p[i].1, date);
    match BlockKind(p[i].0)
    case None =>
    case Some(kind) => BlockFiltersErr(p[i].1, kind, DoneState, date);
  }

  /** The blocks up to and including the first failing one have been processed, and no more. */
  lemma PresetAfterAt(p: seq<(string, Value)>, i: nat)
    requires i < |p| && !PresetRejected(p[..i])
    requires BlockKind(p[i].0).None? || BlockRejected(p[i].1)
    ensures forall k :: 0 <= k < |p| ==>
              PresetAfter(p)[k] == if k <= i && BlockKind(p[k].0).Some? then (p[k].0, BlockAfter(p[k].1)) else p[k]
  {
    forall k | 0 <= k < |p|
      ensures PresetAfter(p)[k] ==
        if k <= i && BlockKind(p[k].0).Some? then (p[k].0, BlockAfter(p[k].1)) else p[k]
    {
      if k <= i {
        assert forall j :: 0 <= j < k ==> p[..k][j] == p[..i][j];
      } else {
        assert p[..k][i] == p[i];
      }
    }
  }

  /** One more accepted block appends its filters and keeps the preset accepted. */
  lemma AcceptedBlock(p: seq<(string, Value)>, i: nat, date: string, params: seq<Dict>)
    requires i < |p| && !PresetRejected(p[..i]) && SettingsFilters(p[..i], date) == Ok(params)
    requires NamedBlockFilters(p[i].0, p[i].1, date).Ok?
    ensures !PresetRejected(p[..i + 1])
    ensures SettingsFilters(p[..i + 1], date) == Ok(params + NamedBlockFilters(p[i].0, p[i].1, date).value)
  {
    assert p[..i + 1][..i] == p[..i];
    assert BlockKind(p[i].0).Some?;
    BlockFiltersErr(p[i].1, BlockKind(p[i].0).value, DoneState, date);
    forall k | 0 <= k < i + 1 ensures p[..i + 1][k] == p[k] {
    }
    assert forall k :: 0 <= k < i ==> p[..i][k] == p[k];
  }

  /** One more accepted item appends its filters and keeps the block accepted. */
  lemma AcceptedItem(base: Dict, xs: seq<Value>, i: nat, params: seq<Dict>)
    requires i < |xs| && !AnyRejected(xs[..i]) && ItemsFilters(base, xs[..i]) == Ok(params)
    requires ItemFilters(base, xs[i]).Ok?
    ensures !AnyRejected(xs[..i + 1])
    ensures ItemsFilters(base, xs[..i + 1]) == Ok(params + ItemFilters(base, xs[i]).value)
  {
    assert xs[..i + 1][..i] == xs[..i];
    forall k | 0 <= k < i + 1 ensures xs[..i + 1][k] == xs[k] {
    }
    assert forall k :: 0 <= k < i ==> xs[..i][k] == xs[k];
  }
}
