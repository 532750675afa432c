/**
 * The code-search tools: how they combine filters, which value map they hand
 * to the filter compiler, which search they ask the connector for, the list
 * they return, and the counting behind the pattern analysis.
 */
module EnterpriseTools {
  import opened Wrappers
  import opened PyDict
  import opened Values
  import opened Settings
  import opened Filters
  import opened Counting
  import opened Qdrant
  import EnterpriseConfig

  /** `_ensure_condition_list`: a bucket as a list of conditions. */
  function EnsureConditionList(b: Bucket): (cs: seq<Condition>)
    ensures b.Absent? ==> cs == []
    ensures b.Single? ==> cs == [b.condition]
    ensures b.Several? ==> cs == b.conditions
  {
    match b
    case Absent => []
    case Single(c) => [c]
    case Several(cs) => cs
  }

  /** Reading back a bucket the filter builders wrote gives the list they wrote. */
  lemma ConditionListRoundTrip(cs: seq<Condition>)
    ensures EnsureConditionList(BucketOf(cs)) == cs
  {
  }

  /**
   * `_merge_filters`: a missing filter is the identity; two filters merge by
   * concatenating `must` and `must_not`, and their `should` lists are dropped.
   */
  function MergeFilters(f1: Option<Filter>, f2: Option<Filter>): (r: Option<Filter>)
    ensures r.None? <==> f1.None? && f2.None?
    ensures f1.None? ==> r == f2
    ensures f2.None? ==> r == f1
    ensures f1.Some? && f2.Some? ==> (r.value.should == Absent && NoEmptyBucket(r.value)
      && EnsureConditionList(r.value.must) == EnsureConditionList(f1.value.must) + EnsureConditionList(f2.value.must)
      && EnsureConditionList(r.value.mustNot) == EnsureConditionList(f1.value.mustNot) + EnsureConditionList(f2.value.mustNot))
  {
    if f1.None? then f2
    else if f2.None? then f1
    else
      var must := EnsureConditionList(f1.value.must) + EnsureConditionList(f2.value.must);
      var mustNot := EnsureConditionList(f1.value.mustNot) + EnsureConditionList(f2.value.mustNot);
      ConditionListRoundTrip(must);
      ConditionListRoundTrip(mustNot);
      Some(Filter(must := BucketOf(must), mustNot := BucketOf(mustNot)))
  }

  /** Merging is associative, so a chain of merges does not depend on grouping. */
  lemma MergeAssociative(a: Option<Filter>, b: Option<Filter>, c: Option<Filter>)
    ensures MergeFilters(MergeFilters(a, b), c) == MergeFilters(a, MergeFilters(b, c))
  {
    if a.Some? && b.Some? && c.Some? {
      var left := MergeFilters(MergeFilters(a, b), c).value;
      var right := MergeFilters(a, MergeFilters(b, c)).value;
      var ma, mb, mc := EnsureConditionList(a.value.must), EnsureConditionList(b.value.must), EnsureConditionList(c.value.must);
      var na, nb, nc := EnsureConditionList(a.value.mustNot), EnsureConditionList(b.value.mustNot), EnsureConditionList(c.value.mustNot);
      assert (ma + mb) + mc == ma + (mb + mc);
      assert (na + nb) + nc == na + (nb + nc);
      assert left.must == BucketOf(ma + mb + mc);
      assert right.must == BucketOf(ma + (mb + mc));
    }
  }

  /** Two present filters lose their preferences: a `should` list never survives a merge. */
  lemma MergeDropsShould(c: Condition)
    ensures MergeFilters(Some(Filter(should := Single(c))), Some(Filter())) == Some(Filter())
  {
  }

  /** `min(search_limit * 3, cap)`. */
  function ScaledLimit(searchLimit: nat, cap: nat): (l: nat)
    ensures l <= cap && l <= 3 * searchLimit
    ensures l == cap || l == 3 * searchLimit
  {
    if 3 * searchLimit < cap then 3 * searchLimit else cap
  }

  /** `if themes:` a list argument counts only when it is given and non-empty. */
  predicate GivenList(xs: Option<seq<string>>) {
    xs.Some? && |xs.value| > 0
  }

  /** `if programming_language:` a text argument counts only when it is given and non-empty. */
  predicate GivenText(s: Option<string>) {
    s.Some? && s.value != ""
  }

  function StringList(xs: seq<string>): (v: Value)
    ensures v.VList? && |v.items| == |xs|
  {
    VList(seq(|xs|, i requires 0 <= i < |xs| => VStr(xs[i])))
  }

  /** `values[name] = v` when the argument was given, for a name not yet in `values`. */
  function AddIf(values: Dict<string, Value>, given: bool, name: string, v: Value): (r: Dict<string, Value>)
    ensures |r| == |values| + (if given then 1 else 0)
    ensures r[..|values|] == values
    ensures given ==> r[|values|] == (name, v)
  {
    if given then values + [(name, v)] else values
  }

  /** After the conditional assignment, a key is present iff it was before or it was just given. */
  lemma AddIfKeys(values: Dict<string, Value>, given: bool, name: string, v: Value, k: string)
    ensures HasKey(AddIf(values, given, name, v), k) <==> HasKey(values, k) || (given && k == name)
  {
    var r := AddIf(values, given, name, v);
    if HasKey(values, k) {
      var i :| 0 <= i < |values| && values[i].0 == k;
      assert r[i] == r[..|values|][i];
    }
    if given {
      assert r[|values|].0 == name;
    }
    if HasKey(r, k) && !(given && k == name) {
      var i :| 0 <= i < |r| && r[i].0 == k;
      assert r[..|values|][i] == r[i];
    }
  }

  /** The names the code-search tools put in their value maps. */
  predicate ToolArgument(name: string) {
    name == "repository_id" || name == "themes" || name == "programming_language"
    || name == "directory" || name == "complexity_score"
  }

  /** Every entry of a value map is a tool argument with a non-null value. */
  predicate ToolValues(values: Dict<string, Value>) {
    forall i :: 0 <= i < |values| ==> ToolArgument(values[i].0) && !values[i].1.VNone?
  }

  /** Adding a given, non-null tool argument keeps a value map of tool arguments. */
  lemma AddIfToolValues(values: Dict<string, Value>, given: bool, name: string, v: Value)
    requires ToolValues(values) && ToolArgument(name) && (given ==> !v.VNone?)
    ensures ToolValues(AddIf(values, given, name, v))
  {
    var r := AddIf(values, given, name, v);
    forall i | 0 <= i < |r| ensures ToolArgument(r[i].0) && !r[i].1.VNone? {
      if i < |values| {
        assert r[i] == r[..|values|][i];
      }
    }
  }

  /** The value map of `search_repository`. */
  function SearchValues(repositoryId: string): Dict<string, Value> {
    [("repository_id", VStr(repositoryId))]
  }

  /** The value map of `analyze_repository_patterns`: the repository, then each truthy optional argument. */
  function AnalyzeValues(repositoryId: string, themes: Option<seq<string>>, language: Option<string>, directory: Option<string>)
    : (values: Dict<string, Value>)
    ensures |values| > 0 && values[0] == ("repository_id", VStr(repositoryId))
  {
    var v1 := AddIf(SearchValues(repositoryId), GivenList(themes), "themes", if themes.Some? then StringList(themes.value) else VNone);
    var v2 := AddIf(v1, GivenText(language), "programming_language", if language.Some? then VStr(language.value) else VNone);
    var v3 := AddIf(v2, GivenText(directory), "directory", if directory.Some? then VStr(directory.value) else VNone);
    assert v3[..1] == v2[..1] == v1[..1] == SearchValues(repositoryId);
    v3
  }

  /** An optional argument of `analyze_repository_patterns` is in its value map exactly when it is truthy. */
  lemma AnalyzeValuesKeys(repositoryId: string, themes: Option<seq<string>>, language: Option<string>, directory: Option<string>)
    ensures var values := AnalyzeValues(repositoryId, themes, language, directory);
      && (HasKey(values, "themes") <==> GivenList(themes))
      && (HasKey(values, "programming_language") <==> GivenText(language))
      && (HasKey(values, "directory") <==> GivenText(directory))
      && ToolValues(values)
  {
    var tv := if themes.Some? then StringList(themes.value) else VNone;
    var lv := if language.Some? then VStr(language.value) else VNone;
    var dv := if directory.Some? then VStr(directory.value) else VNone;
    var v0 := SearchValues(repositoryId);
    var v1 := AddIf(v0, GivenList(themes), "themes", tv);
    var v2 := AddIf(v1, GivenText(language), "programming_language", lv);
    forall k | k in ["themes", "programming_language", "directory"]
      ensures HasKey(AddIf(v2, GivenText(directory), "directory", dv), k)
        <==> ((k == "themes" && GivenList(themes)) || (k == "programming_language" && GivenText(language))
          || (k == "directory" && GivenText(directory)))
    {
      AddIfKeys(v0, GivenList(themes), "themes", tv, k);
      AddIfKeys(v1, GivenText(language), "programming_language", lv, k);
      AddIfKeys(v2, GivenText(directory), "directory", dv, k);
    }
    AddIfToolValues(v0, GivenList(themes), "themes", tv);
    AddIfToolValues(v1, GivenText(language), "programming_language", lv);
    AddIfToolValues(v2, GivenText(directory), "directory", dv);
  }

  /** The value map of `find_implementations`: a minimum complexity counts whenever it is given, 0 included. */
  function FindValues(repositoryId: string, themes: Option<seq<string>>, language: Option<string>, minComplexity: Option<int>)
    : (values: Dict<string, Value>)
    ensures |values| > 0 && values[0] == ("repository_id", VStr(repositoryId))
  {
    var v1 := AddIf(SearchValues(repositoryId), GivenList(themes), "themes", if themes.Some? then StringList(themes.value) else VNone);
    var v2 := AddIf(v1, GivenText(language), "programming_language", if language.Some? then VStr(language.value) else VNone);
    var v3 := AddIf(v2, minComplexity.Some?, "complexity_score", if minComplexity.Some? then VInt(minComplexity.value) else VNone);
    assert v3[..1] == v2[..1] == v1[..1] == SearchValues(repositoryId);
    v3
  }

  /** `min_complexity` is in the value map of `find_implementations` whenever it is not None, 0 included. */
  lemma FindValuesKeys(repositoryId: string, themes: Option<seq<string>>, language: Option<string>, minComplexity: Option<int>)
    ensures var values := FindValues(repositoryId, themes, language, minComplexity);
      && (HasKey(values, "themes") <==> GivenList(themes))
      && (HasKey(values, "programming_language") <==> GivenText(language))
      && (HasKey(values, "complexity_score") <==> minComplexity.Some?)
      && ToolValues(values)
  {
    var tv := if themes.Some? then StringList(themes.value) else VNone;
    var lv := if language.Some? then VStr(language.value) else VNone;
    var cv := if minComplexity.Some? then VInt(minComplexity.value) else VNone;
    var v0 := SearchValues(repositoryId);
    var v1 := AddIf(v0, GivenList(themes), "themes", tv);
    var v2 := AddIf(v1, GivenText(language), "programming_language", lv);
    forall k | k in ["themes", "programming_language", "complexity_score"]
      ensures HasKey(AddIf(v2, minComplexity.Some?, "complexity_score", cv), k)
        <==> ((k == "themes" && GivenList(themes)) || (k == "programming_language" && GivenText(language))
          || (k == "complexity_score" && minComplexity.Some?))
    {
      AddIfKeys(v0, GivenList(themes), "themes", tv, k);
      AddIfKeys(v1, GivenText(language), "programming_language", lv, k);
      AddIfKeys(v2, minComplexity.Some?, "complexity_score", cv, k);
    }
    AddIfToolValues(v0, GivenList(themes), "themes", tv);
    AddIfToolValues(v1, GivenText(language), "programming_language", lv);
    AddIfToolValues(v2, minComplexity.Some?, "complexity_score", cv);
  }

  const CODE_ANALYSIS_QUERY: string := "code implementation function class method"

  /** The query of `analyze_repository_patterns`: the themes, space-joined, ahead of the generic one. */
  function AnalysisQuery(themes: Option<seq<string>>): string {
    if GivenList(themes) then Join(" ", themes.value) + " " + CODE_ANALYSIS_QUERY else CODE_ANALYSIS_QUERY
  }

  /**
   * The search `search_repository` asks for: the compiled repository filter,
   * merged with the caller's filter when there is one, and the limit unchanged.
   */
  method SearchRepositoryRequest(reg: Registry, searchLimit: nat, repositoryId: string, query: string,
                                 collectionName: string, queryFilter: Option<Filter>)
    returns (r: Result<SearchArgs, FilterError>)
    ensures r.Failure? <==> Compile(reg, SearchValues(repositoryId)).Failure?
    ensures r.Failure? ==> r.error == Compile(reg, SearchValues(repositoryId)).error
    ensures r.Success? ==> r.value == SearchArgs(query, collectionName, searchLimit,
      MergeFilters(Some(Compile(reg, SearchValues(repositoryId)).value), queryFilter))
  {
    var filterConditions := SearchValues(repositoryId);
    var built := MakeFilter(reg, filterConditions);
    if built.Failure? {
      return Failure(built.error);
    }
    var combined := Some(built.value);
    if queryFilter.Some? {
      combined := MergeFilters(combined, queryFilter);
    }
    r := Success(SearchArgs(query, collectionName, searchLimit, combined));
  }

  /** The search `analyze_repository_patterns` asks for: optional arguments only when truthy, three times the limit up to 100. */
  method AnalyzeRepositoryRequest(reg: Registry, searchLimit: nat, repositoryId: string, collectionName: string,
                                  themes: Option<seq<string>>, language: Option<string>, directory: Option<string>)
    returns (r: Result<SearchArgs, FilterError>)
    ensures var values := AnalyzeValues(repositoryId, themes, language, directory);
      && (r.Failure? <==> Compile(reg, values).Failure?)
      && (r.Failure? ==> r.error == Compile(reg, values).error)
      && (r.Success? ==> r.value == SearchArgs(AnalysisQuery(themes), collectionName, ScaledLimit(searchLimit, 100),
            Some(Compile(reg, values).value)))
  {
    var filterConditions := [("repository_id", VStr(repositoryId))];
    if themes.Some? && |themes.value| > 0 {
      filterConditions := filterConditions + [("themes", StringList(themes.value))];
    }
    ghost var v1 := filterConditions;
    assert v1 == AddIf(SearchValues(repositoryId), GivenList(themes), "themes",
      if themes.Some? then StringList(themes.value) else VNone);
    if language.Some? && language.value != "" {
      filterConditions := filterConditions + [("programming_language", VStr(language.value))];
    }
    ghost var v2 := filterConditions;
    assert v2 == AddIf(v1, GivenText(language), "programming_language", if language.Some? then VStr(language.value) else VNone);
    if directory.Some? && directory.value != "" {
      filterConditions := filterConditions + [("directory", VStr(directory.value))];
    }
    assert filterConditions == AddIf(v2, GivenText(directory), "directory", if directory.Some? then VStr(directory.value) else VNone);
    assert filterConditions == AnalyzeValues(repositoryId, themes, language, directory);
    var built := MakeFilter(reg, filterConditions);
    if built.Failure? {
      return Failure(built.error);
    }
    var analysisQuery := CODE_ANALYSIS_QUERY;
    if themes.Some? && |themes.value| > 0 {
      analysisQuery := Join(" ", themes.value) + " " + analysisQuery;
    }
    var analysisLimit := if searchLimit * 3 < 100 then searchLimit * 3 else 100;
    r := Success(SearchArgs(analysisQuery, collectionName, analysisLimit, Some(built.value)));
  }

  /** The search `find_implementations` asks for: the pattern query and the limit unchanged. */
  method FindImplementationsRequest(reg: Registry, searchLimit: nat, repositoryId: string, patternQuery: string,
                                    collectionName: string, themes: Option<seq<string>>, language: Option<string>,
                                    minComplexity: Option<int>)
    returns (r: Result<SearchArgs, FilterError>)
    ensures var values := FindValues(repositoryId, themes, language, minComplexity);
      && (r.Failure? <==> Compile(reg, values).Failure?)
      && (r.Failure? ==> r.error == Compile(reg, values).error)
      && (r.Success? ==> r.value == SearchArgs(patternQuery, collectionName, searchLimit, Some(Compile(reg, values).value)))
  {
    var filterConditions := [("repository_id", VStr(repositoryId))];
    if themes.Some? && |themes.value| > 0 {
      filterConditions := filterConditions + [("themes", StringList(themes.value))];
    }
    ghost var v1 := filterConditions;
    assert v1 == AddIf(SearchValues(repositoryId), GivenList(themes), "themes",
      if themes.Some? then StringList(themes.value) else VNone);
    if language.Some? && language.value != "" {
      filterConditions := filterConditions + [("programming_language", VStr(language.value))];
    }
    ghost var v2 := filterConditions;
    assert v2 == AddIf(v1, GivenText(language), "programming_language", if language.Some? then VStr(language.value) else VNone);
    if minComplexity.Some? {
      filterConditions := filterConditions + [("complexity_score", VInt(minComplexity.value))];
    }
    assert filterConditions == FindValues(repositoryId, themes, language, minComplexity);
    var built := MakeFilter(reg, filterConditions);
    if built.Failure? {
      return Failure(built.error);
    }
    r := Success(SearchArgs(patternQuery, collectionName, searchLimit, Some(built.value)));
  }

  /** The one `must` condition a tool argument compiles to against the exposed enterprise registry. */
  function ExpectedCondition(name: string, v: Value): Condition {
    if name == "themes" then FieldCondition(MetadataKey(name), ByMatch(MatchAny(v)))
    else if name == "complexity_score" then FieldCondition(MetadataKey(name), ByRange(Range(gte := Some(v))))
    else FieldCondition(MetadataKey(name), ByMatch(MatchValue(v)))
  }

  function ExpectedConditions(values: Dict<string, Value>): (cs: seq<Condition>)
    ensures |cs| == |values|
  {
    seq(|values|, i requires 0 <= i < |values| => ExpectedCondition(values[i].0, values[i].1))
  }

  /** A registry entry with the given type and condition. */
  predicate Serves(reg: Registry, name: string, t: FieldType, c: Cond) {
    Get(reg, name).Some? && Get(reg, name).value.fieldType == t && Get(reg, name).value.condition == Some(c)
  }

  /** A registry that declares the tool arguments as the exposed enterprise registry does. */
  predicate ServesToolArguments(reg: Registry) {
    Serves(reg, "repository_id", Keyword, Eq) && Serves(reg, "themes", Keyword, Any)
    && Serves(reg, "programming_language", Keyword, Eq) && Serves(reg, "directory", Keyword, Eq)
    && Serves(reg, "complexity_score", Integer, Ge)
  }

  lemma ExposedServesToolArguments()
    ensures ServesToolArguments(EnterpriseConfig.EnterpriseFieldsWithConditions())
  {
    EnterpriseConfig.ToolFieldAttributes();
    EnterpriseConfig.ExposedLookup(0);
    EnterpriseConfig.ExposedLookup(1);
    EnterpriseConfig.ExposedLookup(2);
    EnterpriseConfig.ExposedLookup(4);
    EnterpriseConfig.ExposedLookup(8);
  }

  lemma MatchValueStep(reg: Registry, name: string, v: Value)
    requires Serves(reg, name, Keyword, Eq) && !v.VNone?
    ensures Step(reg, name, v) == Success(MustOnly(FieldCondition(MetadataKey(name), ByMatch(MatchValue(v)))))
  {
    var key := MetadataKey(name);
    assert Dispatch(Keyword, Some(Eq), key, v) == Success(MustOnly(FieldCondition(key, ByMatch(MatchValue(v)))));
  }

  lemma MatchAnyStep(reg: Registry, name: string, v: Value)
    requires Serves(reg, name, Keyword, Any) && !v.VNone?
    ensures Step(reg, name, v) == Success(MustOnly(FieldCondition(MetadataKey(name), ByMatch(MatchAny(v)))))
  {
    var key := MetadataKey(name);
    assert Dispatch(Keyword, Some(Any), key, v) == Success(MustOnly(FieldCondition(key, ByMatch(MatchAny(v)))));
  }

  lemma LowerBoundStep(reg: Registry, name: string, v: Value)
    requires Serves(reg, name, Integer, Ge) && !v.VNone?
    ensures Step(reg, name, v) == Success(MustOnly(FieldCondition(MetadataKey(name), ByRange(Range(gte := Some(v))))))
  {
    var key := MetadataKey(name);
    assert Dispatch(Integer, Some(Ge), key, v) == Success(MustOnly(OneSided(key, Ge, v)));
  }

  lemma ToolArgumentStep(reg: Registry, name: string, v: Value)
    requires ServesToolArguments(reg) && ToolArgument(name) && !v.VNone?
    ensures Step(reg, name, v) == Success(MustOnly(ExpectedCondition(name, v)))
  {
    if name == "themes" {
      MatchAnyStep(reg, name, v);
    } else if name == "complexity_score" {
      LowerBoundStep(reg, name, v);
    } else {
      MatchValueStep(reg, name, v);
    }
  }

  lemma ExpectedConditionsSnoc(values: Dict<string, Value>)
    requires |values| > 0
    ensures var n := |values| - 1;
      ExpectedConditions(values) == ExpectedConditions(values[..n]) + [ExpectedCondition(values[n].0, values[n].1)]
  {
  }

  /** A value map whose every entry steps to its expected `must` condition compiles to those conditions, in order. */
  lemma {:induction false} MustOnlyEmissions(reg: Registry, values: Dict<string, Value>)
    requires forall i :: 0 <= i < |values| ==>
      Step(reg, values[i].0, values[i].1) == Success(MustOnly(ExpectedCondition(values[i].0, values[i].1)))
    ensures Emissions(reg, values) == Success(Emission(ExpectedConditions(values), [], []))
    decreases |values|
  {
    if |values| > 0 {
      var n := |values| - 1;
      var prefix := values[..n];
      assert forall i :: 0 <= i < |prefix| ==> prefix[i] == values[i];
      MustOnlyEmissions(reg, prefix);
      ExpectedConditionsSnoc(values);
      var c := ExpectedCondition(values[n].0, values[n].1);
      assert Step(reg, values[n].0, values[n].1) == Success(MustOnly(c));
      assert Combine(Emission(ExpectedConditions(prefix), [], []), MustOnly(c)) == Emission(ExpectedConditions(values), [], []);
    }
  }

  /**
   * Against a registry that serves the tool arguments, a value map of
   * non-null tool arguments always compiles, and each argument becomes one
   * `must` condition, in the order of the map.
   */
  lemma ToolArgumentsCompile(reg: Registry, values: Dict<string, Value>)
    requires ServesToolArguments(reg)
    requires ToolValues(values)
    ensures Emissions(reg, values) == Success(Emission(ExpectedConditions(values), [], []))
  {
    forall i | 0 <= i < |values|
      ensures Step(reg, values[i].0, values[i].1) == Success(MustOnly(ExpectedCondition(values[i].0, values[i].1)))
    {
      ToolArgumentStep(reg, values[i].0, values[i].1);
    }
    MustOnlyEmissions(reg, values);
  }

  function RepositoryCondition(repositoryId: string): Condition {
    FieldCondition(MetadataKey("repository_id"), ByMatch(MatchValue(VStr(repositoryId))))
  }

  /** The repository filter compiles to the one repository condition, and it heads the merge with any caller filter. */
  lemma RepositoryFilterLeads(reg: Registry, repositoryId: string, queryFilter: Option<Filter>)
    requires ServesToolArguments(reg)
    ensures Compile(reg, SearchValues(repositoryId)) == Success(Filter(must := Several([RepositoryCondition(repositoryId)])))
    ensures var f := MergeFilters(Some(Filter(must := Several([RepositoryCondition(repositoryId)]))), queryFilter);
      f.Some? && |EnsureConditionList(f.value.must)| > 0 && EnsureConditionList(f.value.must)[0] == RepositoryCondition(repositoryId)
  {
    ToolArgumentsCompile(reg, SearchValues(repositoryId));
    assert ExpectedConditions(SearchValues(repositoryId)) == [RepositoryCondition(repositoryId)];
  }

  /**
   * `search_repository` against the exposed enterprise registry never fails
   * to build its filter, and whatever filter the caller adds, the search is
   * scoped to the repository: its first `must` condition matches `repository_id`.
   */
  lemma SearchIsScopedToRepository(repositoryId: string, queryFilter: Option<Filter>)
    ensures Compile(EnterpriseConfig.EnterpriseFieldsWithConditions(), SearchValues(repositoryId))
      == Success(Filter(must := Several([RepositoryCondition(repositoryId)])))
    ensures var f := MergeFilters(Some(Filter(must := Several([RepositoryCondition(repositoryId)]))), queryFilter);
      f.Some? && |EnsureConditionList(f.value.must)| > 0 && EnsureConditionList(f.value.must)[0] == RepositoryCondition(repositoryId)
  {
    ExposedServesToolArguments();
    RepositoryFilterLeads(EnterpriseConfig.EnterpriseFieldsWithConditions(), repositoryId, queryFilter);
  }

  /**
   * The filters of `analyze_repository_patterns` and `find_implementations`
   * compile against a registry serving the tool arguments into `must`
   * conditions only, one per value-map entry, the repository condition first.
   */
  lemma ToolFiltersLead(reg: Registry, repositoryId: string, themes: Option<seq<string>>, language: Option<string>,
                        directory: Option<string>, minComplexity: Option<int>)
    requires ServesToolArguments(reg)
    ensures var values := AnalyzeValues(repositoryId, themes, language, directory);
      Compile(reg, values) == Success(Filter(must := Several(ExpectedConditions(values))))
      && ExpectedConditions(values)[0] == RepositoryCondition(repositoryId)
    ensures var values := FindValues(repositoryId, themes, language, minComplexity);
      Compile(reg, values) == Success(Filter(must := Several(ExpectedConditions(values))))
      && ExpectedConditions(values)[0] == RepositoryCondition(repositoryId)
  {
    AnalyzeValuesKeys(repositoryId, themes, language, directory);
    FindValuesKeys(repositoryId, themes, language, minComplexity);
    ToolArgumentsCompile(reg, AnalyzeValues(repositoryId, themes, language, directory));
    ToolArgumentsCompile(reg, FindValues(repositoryId, themes, language, minComplexity));
  }

  /** The same, against the exposed enterprise registry. */
  lemma AnalyzeAndFindAreScopedToRepository(repositoryId: string, themes: Option<seq<string>>, language: Option<string>,
                                           directory: Option<string>, minComplexity: Option<int>)
    ensures var values := AnalyzeValues(repositoryId, themes, language, directory);
      Compile(EnterpriseConfig.EnterpriseFieldsWithConditions(), values) == Success(Filter(must := Several(ExpectedConditions(values))))
      && ExpectedConditions(values)[0] == RepositoryCondition(repositoryId)
    ensures var values := FindValues(repositoryId, themes, language, minComplexity);
      Compile(EnterpriseConfig.EnterpriseFieldsWithConditions(), values) == Success(Filter(must := Several(ExpectedConditions(values))))
      && ExpectedConditions(values)[0] == RepositoryCondition(repositoryId)
  {
    ExposedServesToolArguments();
    ToolFiltersLead(EnterpriseConfig.EnterpriseFieldsWithConditions(), repositoryId, themes, language, directory, minComplexity);
  }

  /** An item of a tool's answer: a text line, or a rendered code snippet or implementation. */
  datatype Line =
    | Message(text: string)
    | CodeSnippet(entry: Entry, repositoryId: string)
    | Implementation(rank: nat, entry: Entry, repositoryId: string)

  /** The answer of `search_repository` to the entries its search returned. */
  method SearchRepositoryAnswer(entries: seq<Entry>, repositoryId: string, query: string) returns (result: seq<Line>)
    ensures |entries| == 0 ==> result == [Message("No results found in repository '" + repositoryId + "' for query '" + query + "'")]
    ensures |entries| > 0 ==> (|result| == |entries| + 1
      && result[0] == Message("Found " + IntText(|entries|) + " code snippets in repository '" + repositoryId + "' for query '" + query + "':")
      && forall i :: 0 <= i < |entries| ==> result[i + 1] == CodeSnippet(entries[i], repositoryId))
  {
    if |entries| == 0 {
      return [Message("No results found in repository '" + repositoryId + "' for query '" + query + "'")];
    }
    result := [Message("Found " + IntText(|entries|) + " code snippets in repository '" + repositoryId + "' for query '" + query + "':")];
    for i := 0 to |entries|
      invariant |result| == i + 1
      invariant result[0] == Message("Found " + IntText(|entries|) + " code snippets in repository '" + repositoryId + "' for query '" + query + "':")
      invariant forall j :: 0 <= j < i ==> result[j + 1] == CodeSnippet(entries[j], repositoryId)
    {
      result := result + [CodeSnippet(entries[i], repositoryId)];
    }
  }

  /** The answer of `find_implementations`: a header, then the entries ranked 1..n in the order returned. */
  method FindImplementationsAnswer(entries: seq<Entry>, repositoryId: string, patternQuery: string) returns (result: seq<Line>)
    ensures |entries| == 0 ==> result == [Message("No implementations found for pattern '" + patternQuery + "' in repository '" + repositoryId + "'")]
    ensures |entries| > 0 ==> (|result| == |entries| + 1
      && result[0] == Message("Found " + IntText(|entries|) + " implementations of '" + patternQuery + "' in repository '" + repositoryId + "':")
      && forall i :: 0 <= i < |entries| ==> result[i + 1] == Implementation(i + 1, entries[i], repositoryId))
  {
    if |entries| == 0 {
      return [Message("No implementations found for pattern '" + patternQuery + "' in repository '" + repositoryId + "'")];
    }
    result := [Message("Found " + IntText(|entries|) + " implementations of '" + patternQuery + "' in repository '" + repositoryId + "':")];
    var rank := 1;
    for i := 0 to |entries|
      invariant |result| == i + 1 && rank == i + 1
      invariant result[0] == Message("Found " + IntText(|entries|) + " implementations of '" + patternQuery + "' in repository '" + repositoryId + "':")
      invariant forall j :: 0 <= j < i ==> result[j + 1] == Implementation(j + 1, entries[j], repositoryId)
    {
      result := result + [Implementation(rank, entries[i], repositoryId)];
      rank := rank + 1;
    }
  }

  /** The `TypeError`s the pattern analysis can raise on odd metadata. */
  datatype PatternError =
    | Unhashable          // a list or dict used as a `Counter` key
    | NotIterable         // `for theme in entry_themes` over a non-iterable value
    | UnsupportedOperand  // `total_lines += lines` or `sum(complexity_scores)` on a non-number

  /**
   * The right operand of a numeric addition: an `int`, a `float`, or a `bool`
   * as 0 or 1; anything else raises `TypeError`.
   */
  function Number(v: Value): (r: Option<real>)
    ensures r.Some? <==> v.VInt? || v.VFloat? || v.VBool?
    ensures v.VInt? ==> r == Some(v.i as real)
    ensures v.VFloat? ==> r == Some(v.r)
    ensures v.VBool? ==> r == Some(if v.b then 1.0 else 0.0)
  {
    match v
    case VInt(i) => Some(i as real)
    case VFloat(x) => Some(x)
    case VBool(b) => Some(if b then 1.0 else 0.0)
    case _ => None
  }

  /** `sum(xs)`: None where an item is not a number. */
  function SumNumbers(xs: seq<Value>): (r: Option<real>)
    ensures r.Some? <==> forall i :: 0 <= i < |xs| ==> Number(xs[i]).Some?
    decreases |xs|
  {
    if |xs| == 0 then Some(0.0)
    else
      match SumNumbers(xs[..|xs| - 1])
      case None => None
      case Some(s) =>
        match Number(xs[|xs| - 1])
        case None => None
        case Some(x) => Some(s + x)
  }

  /** The statistics the analysis loop gathers. */
  datatype Tallies = Tallies(
    languages: Counter,
    themes: Counter,
    directories: Counter,
    fileTypes: Counter,
    complexityScores: seq<Value>,
    withPatterns: nat,
    withComments: nat,
    totalLines: real)

  const NoTallies: Tallies := Tallies([], [], [], [], [], 0, 0, 0.0)

  /** `if not entry.metadata: continue`: only entries with non-empty metadata are counted. */
  predicate Described(e: Entry) {
    e.metadata.Some? && e.metadata.value != []
  }

  /** `1 if metadata.get(key, False) else 0`: whether a flag counts for an entry. */
  function Flag(metadata: Payload, key: string): (r: nat)
    ensures r <= 1
    ensures r == 1 <==> Truthy(GetOr(metadata, key, VBool(false)))
  {
    if Truthy(GetOr(metadata, key, VBool(false))) then 1 else 0
  }

  /** One pass of the loop body over the metadata of a described entry. */
  function Absorb(t: Tallies, metadata: Payload): Result<Tallies, PatternError> {
    var lang := GetOr(metadata, "programming_language", VStr("unknown"));
    if !Hashable(lang) then Failure(Unhashable)
    else
      match Iterate(GetOr(metadata, "themes", VList([])))
      case None => Failure(NotIterable)
      case Some(entryThemes) =>
        match CountKeys(t.themes, entryThemes)
        case None => Failure(Unhashable)
        case Some(themes) => AbsorbRest(t, metadata, lang, themes)
  }

  /** The loop body from the directory on, once the language and the themes are counted. */
  function AbsorbRest(t: Tallies, metadata: Payload, lang: Value, themes: Counter): Result<Tallies, PatternError> {
    var directory := GetOr(metadata, "directory", VStr("root"));
    var fileType := GetOr(metadata, "file_type", VStr("unknown"));
    if !Hashable(directory) || !Hashable(fileType) then Failure(Unhashable)
    else
      match Number(GetOr(metadata, "line_count", VInt(0)))
      case None => Failure(UnsupportedOperand)
      case Some(lines) =>
        Success(Tallies(
          Inc(t.languages, lang),
          themes,
          Inc(t.directories, directory),
          Inc(t.fileTypes, fileType),
          t.complexityScores + [GetOr(metadata, "complexity_score", VInt(0))],
          t.withPatterns + Flag(metadata, "has_code_patterns"),
          t.withComments + Flag(metadata, "has_comments"),
          t.totalLines + lines))
  }

  /** The analysis loop over all entries; the first raising entry's error wins. */
  function TallyEntries(entries: seq<Entry>): Result<Tallies, PatternError>
    decreases |entries|
  {
    if |entries| == 0 then Success(NoTallies)
    else
      match TallyEntries(entries[..|entries| - 1])
      case Failure(e) => Failure(e)
      case Success(t) =>
        var last := entries[|entries| - 1];
        if Described(last) then Absorb(t, last.metadata.value) else Success(t)
  }

  /** The integer content of the report; averages and percentages are left to the renderer. */
  datatype Analysis =
    | NoEntries(message: string)
    | Report(
        repositoryId: string,
        analyzed: nat,
        topLanguages: seq<(Value, nat)>,
        topThemes: seq<(Value, nat)>,
        topDirectories: seq<(Value, nat)>,
        complexitySum: real,
        complexityCount: nat,
        totalLines: real,
        withPatterns: nat,
        withComments: nat,
        topFileTypes: seq<(Value, nat)>)

  function NoEntriesMessage(repositoryId: string): string {
    "No code entries available for analysis in repository '" + repositoryId + "'"
  }

  /** `_analyze_code_patterns`: the analysis of a list of entries. */
  function CodePatterns(entries: seq<Entry>, repositoryId: string): Result<Analysis, PatternError> {
    if |entries| == 0 then Success(NoEntries(NoEntriesMessage(repositoryId)))
    else
      match TallyEntries(entries)
      case Failure(e) => Failure(e)
      case Success(t) =>
        match SumNumbers(t.complexityScores)
        case None => Failure(UnsupportedOperand)
        case Some(complexitySum) =>
          Success(Report(repositoryId, |entries|,
            MostCommon(t.languages, 5), MostCommon(t.themes, 10), MostCommon(t.directories, 8),
            complexitySum, |t.complexityScores|, t.totalLines, t.withPatterns, t.withComments,
            MostCommon(t.fileTypes, 8)))
  }

  lemma {:induction false} TallyFailurePropagates(entries: seq<Entry>, n: nat, e: PatternError)
    requires n <= |entries| && TallyEntries(entries[..n]) == Failure(e)
    ensures TallyEntries(entries) == Failure(e)
    decreases |entries| - n
  {
    if n < |entries| {
      assert entries[..n + 1][..n] == entries[..n];
      TallyFailurePropagates(entries, n + 1, e);
    } else {
      assert entries[..n] == entries;
    }
  }

  lemma TallyStep(entries: seq<Entry>, i: nat, t: Tallies)
    requires i < |entries| && TallyEntries(entries[..i]) == Success(t)
    ensures TallyEntries(entries[..i + 1]) == if Described(entries[i]) then Absorb(t, entries[i].metadata.value) else Success(t)
  {
    assert entries[..i + 1][..i] == entries[..i];
  }

  /** How many entries carry metadata, and so are counted. */
  function DescribedCount(entries: seq<Entry>): (n: nat)
    ensures n <= |entries|
    decreases |entries|
  {
    if |entries| == 0 then 0
    else DescribedCount(entries[..|entries| - 1]) + (if Described(entries[|entries| - 1]) then 1 else 0)
  }

  /** The entries the analysis loop does not skip, in order. */
  function DescribedOnly(entries: seq<Entry>): (r: seq<Entry>)
    ensures |r| == DescribedCount(entries)
    ensures forall i :: 0 <= i < |r| ==> Described(r[i])
    decreases |entries|
  {
    if |entries| == 0 then []
    else
      var init := DescribedOnly(entries[..|entries| - 1]);
      if Described(entries[|entries| - 1]) then init + [entries[|entries| - 1]] else init
  }

  /** Entries without metadata change nothing: the analysis sees only the described entries. */
  lemma {:induction false} UndescribedEntriesIgnored(entries: seq<Entry>)
    ensures TallyEntries(entries) == TallyEntries(DescribedOnly(entries))
    decreases |entries|
  {
    if |entries| > 0 {
      var n := |entries| - 1;
      UndescribedEntriesIgnored(entries[..n]);
      var s := DescribedOnly(entries);
      if Described(entries[n]) {
        assert s[..|s| - 1] == DescribedOnly(entries[..n]);
        assert s[|s| - 1] == entries[n];
      }
    }
  }

  /** One described entry adds one to each per-entry statistic, and at most one to each flag count. */
  lemma AbsorbTotals(t: Tallies, metadata: Payload)
    requires Absorb(t, metadata).Success?
    ensures var u := Absorb(t, metadata).value;
      && Total(u.languages) == Total(t.languages) + 1
      && Total(u.directories) == Total(t.directories) + 1
      && Total(u.fileTypes) == Total(t.fileTypes) + 1
      && |u.complexityScores| == |t.complexityScores| + 1
      && t.withPatterns <= u.withPatterns <= t.withPatterns + 1
      && t.withComments <= u.withComments <= t.withComments + 1
  {
    var lang := GetOr(metadata, "programming_language", VStr("unknown"));
    var entryThemes := Iterate(GetOr(metadata, "themes", VList([]))).value;
    var themes := CountKeys(t.themes, entryThemes).value;
    assert Absorb(t, metadata) == AbsorbRest(t, metadata, lang, themes);
    AbsorbRestFields(t, metadata, lang, themes);
    IncTotal(t.languages, lang);
    IncTotal(t.directories, GetOr(metadata, "directory", VStr("root")));
    IncTotal(t.fileTypes, GetOr(metadata, "file_type", VStr("unknown")));
  }

  /** Statistics gathered over `n` described entries. */
  predicate Consistent(t: Tallies, n: nat) {
    && Total(t.languages) == n && Total(t.directories) == n && Total(t.fileTypes) == n
    && |t.complexityScores| == n && t.withPatterns <= n && t.withComments <= n
  }

  /**
   * Each described entry counts once for its language, its directory and
   * its file type and adds one complexity score, so each of these counters
   * totals the number of described entries.
   */
  lemma {:induction false} TallyCounts(entries: seq<Entry>)
    requires TallyEntries(entries).Success?
    ensures Consistent(TallyEntries(entries).value, DescribedCount(entries))
    decreases |entries|
  {
    if |entries| > 0 {
      var n := |entries| - 1;
      assert TallyEntries(entries[..n]).Success?;
      TallyCounts(entries[..n]);
      if Described(entries[n]) {
        AbsorbTotals(TallyEntries(entries[..n]).value, entries[n].metadata.value);
      }
    }
  }

  /**
   * The report of `_analyze_code_patterns` on a non-empty list: every entry
   * is reported as analyzed, the averages are over the described entries,
   * the flag counts and every shown count are at most that many, and each
   * ranking is cut at its size.
   */
  lemma ReportBounds(entries: seq<Entry>, repositoryId: string)
    requires CodePatterns(entries, repositoryId).Success?
    ensures CodePatterns(entries, repositoryId).value.NoEntries? <==> |entries| == 0
    ensures var a := CodePatterns(entries, repositoryId).value;
      a.Report? ==>
        && a.repositoryId == repositoryId && a.analyzed == |entries|
        && a.complexityCount == DescribedCount(entries)
        && a.withPatterns <= a.complexityCount && a.withComments <= a.complexityCount
        && |a.topLanguages| <= 5 && |a.topThemes| <= 10 && |a.topDirectories| <= 8 && |a.topFileTypes| <= 8
        && (forall p :: p in a.topLanguages ==> p.1 <= a.complexityCount)
        && (forall p :: p in a.topDirectories ==> p.1 <= a.complexityCount)
        && (forall p :: p in a.topFileTypes ==> p.1 <= a.complexityCount)
  {
    if |entries| > 0 {
      var t := TallyEntries(entries).value;
      TallyCounts(entries);
      MostCommonWithinTotal(t.languages, 5);
      MostCommonWithinTotal(t.directories, 8);
      MostCommonWithinTotal(t.fileTypes, 8);
    }
  }

  /** When nothing raises, each statistic of the loop body is updated on its own. */
  lemma AbsorbRestFields(t: Tallies, metadata: Payload, lang: Value, themes: Counter)
    requires Hashable(GetOr(metadata, "directory", VStr("root"))) && Hashable(GetOr(metadata, "file_type", VStr("unknown")))
    requires Number(GetOr(metadata, "line_count", VInt(0))).Some?
    ensures AbsorbRest(t, metadata, lang, themes).Success?
    ensures AbsorbRest(t, metadata, lang, themes).value.languages == Inc(t.languages, lang)
    ensures AbsorbRest(t, metadata, lang, themes).value.themes == themes
    ensures AbsorbRest(t, metadata, lang, themes).value.directories == Inc(t.directories, GetOr(metadata, "directory", VStr("root")))
    ensures AbsorbRest(t, metadata, lang, themes).value.fileTypes == Inc(t.fileTypes, GetOr(metadata, "file_type", VStr("unknown")))
    ensures AbsorbRest(t, metadata, lang, themes).value.complexityScores == t.complexityScores + [GetOr(metadata, "complexity_score", VInt(0))]
    ensures AbsorbRest(t, metadata, lang, themes).value.withPatterns == t.withPatterns + Flag(metadata, "has_code_patterns")
    ensures AbsorbRest(t, metadata, lang, themes).value.withComments == t.withComments + Flag(metadata, "has_comments")
    ensures AbsorbRest(t, metadata, lang, themes).value.totalLines == t.totalLines + Number(GetOr(metadata, "line_count", VInt(0))).value
  {
  }

  /** Statistics that agree field by field are the same. */
  lemma TalliesOfFields(x: Tallies, languages: Counter, themes: Counter, directories: Counter, fileTypes: Counter,
                        complexityScores: seq<Value>, withPatterns: nat, withComments: nat, totalLines: real)
    requires x.languages == languages && x.themes == themes && x.directories == directories && x.fileTypes == fileTypes
    requires x.complexityScores == complexityScores && x.withPatterns == withPatterns && x.withComments == withComments
    requires x.totalLines == totalLines
    ensures x == Tallies(languages, themes, directories, fileTypes, complexityScores, withPatterns, withComments, totalLines)
  {
  }

  /** `if metadata.get(key, False): count += 1`. */
  method CountFlag(count: nat, metadata: Payload, key: string) returns (r: nat)
    ensures r == count + Flag(metadata, key)
  {
    r := count;
    if Truthy(GetOr(metadata, key, VBool(false))) {
      r := r + 1;
    }
  }

  /** The body of the analysis loop for one entry with metadata, statistic by statistic. */
  method CountEntry(t: Tallies, metadata: Payload) returns (r: Result<Tallies, PatternError>)
    ensures r == Absorb(t, metadata)
  {
    var languages, directories, fileTypes := t.languages, t.directories, t.fileTypes;
    var complexityScores, hasPatternsCount, hasCommentsCount, totalLines := t.complexityScores, t.withPatterns, t.withComments, t.totalLines;
    var lang := GetOr(metadata, "programming_language", VStr("unknown"));
    if !Hashable(lang) {
      return Failure(Unhashable);
    }
    languages := Inc(languages, lang);
    var entryThemes := Iterate(GetOr(metadata, "themes", VList([])));
    if entryThemes.None? {
      return Failure(NotIterable);
    }
    var themes, ok := CountAll(t.themes, entryThemes.value);
    if !ok {
      return Failure(Unhashable);
    }
    assert Absorb(t, metadata) == AbsorbRest(t, metadata, lang, themes);
    var directory := GetOr(metadata, "directory", VStr("root"));
    if !Hashable(directory) {
      return Failure(Unhashable);
    }
    directories := Inc(directories, directory);
    var fileType := GetOr(metadata, "file_type", VStr("unknown"));
    if !Hashable(fileType) {
      return Failure(Unhashable);
    }
    fileTypes := Inc(fileTypes, fileType);
    complexityScores := complexityScores + [GetOr(metadata, "complexity_score", VInt(0))];
    hasPatternsCount := CountFlag(hasPatternsCount, metadata, "has_code_patterns");
    hasCommentsCount := CountFlag(hasCommentsCount, metadata, "has_comments");
    var lines := Number(GetOr(metadata, "line_count", VInt(0)));
    if lines.None? {
      return Failure(UnsupportedOperand);
    }
    totalLines := totalLines + lines.value;
    AbsorbRestFields(t, metadata, lang, themes);
    TalliesOfFields(AbsorbRest(t, metadata, lang, themes).value, languages, themes, directories, fileTypes, complexityScores,
      hasPatternsCount, hasCommentsCount, totalLines);
    r := Success(Tallies(languages, themes, directories, fileTypes, complexityScores,
      hasPatternsCount, hasCommentsCount, totalLines));
  }

  /** `_analyze_code_patterns`: one pass over the entries, skipping those without metadata, then the report. */
  method AnalyzeCodePatterns(entries: seq<Entry>, repositoryId: string) returns (r: Result<Analysis, PatternError>)
    ensures r == CodePatterns(entries, repositoryId)
  {
    if |entries| == 0 {
      return Success(NoEntries(NoEntriesMessage(repositoryId)));
    }
    var tallies := NoTallies;
    for i := 0 to |entries|
      invariant TallyEntries(entries[..i]) == Success(tallies)
    {
      TallyStep(entries, i, tallies);
      var entry := entries[i];
      if Described(entry) {
        var counted := CountEntry(tallies, entry.metadata.value);
        if counted.Failure? {
          TallyFailurePropagates(entries, i + 1, counted.error);
          return Failure(counted.error);
        }
        tallies := counted.value;
      }
    }
    assert entries[..|entries|] == entries;
    var complexitySum := SumNumbers(tallies.complexityScores);
    if complexitySum.None? {
      return Failure(UnsupportedOperand);
    }
    r := Success(Report(repositoryId, |entries|,
      MostCommon(tallies.languages, 5), MostCommon(tallies.themes, 10), MostCommon(tallies.directories, 8),
      complexitySum.value, |tallies.complexityScores|, tallies.totalLines, tallies.withPatterns, tallies.withComments,
      MostCommon(tallies.fileTypes, 8)));
  }
}
