/**
 * Configuration records: the filterable-field declaration, the name-keyed
 * registries built from a list of fields, and the settings checks.
 */
module Settings {
  import opened Wrappers
  import opened PyDict

  /** Payload key under which an entry's metadata is stored and filtered. */
  const METADATA_PATH: string := "metadata"

  const DEFAULT_TOOL_STORE_DESCRIPTION: string :=
    "Keep the memory for later use, when you are asked to remember something."
  const DEFAULT_TOOL_FIND_DESCRIPTION: string :=
    "Look up memories in Qdrant. Use this tool when you need to: \n"
    + " - Find memories by their content \n"
    + " - Access memories for further analysis \n"
    + " - Get some personal information about the user"
  const ENTERPRISE_TOOL_SEARCH_DESCRIPTION: string :=
    "Search for code patterns and implementations across GitHub repositories. "
    + "Use this tool to find specific functionality, patterns, or implementations within a codebase. "
    + "Always specify repository_id to scope your search to a specific repository. "
    + "Use themes to find semantic patterns (e.g., 'authentication', 'database', 'api'). "
    + "Examples:\n"
    + "- Find authentication patterns: repository_id='owner/repo', themes=['authentication']\n"
    + "- Find TypeScript database code: repository_id='owner/repo', themes=['database'], programming_language='typescript'\n"
    + "- Find complex frontend components: repository_id='owner/repo', themes=['frontend'], complexity_score=5"

  /**
   * The `field_type` strings the filter compiler distinguishes; any other
   * string is `Unsupported`.
   */
  datatype FieldType = Keyword | Integer | Float | Boolean | Text | Unsupported(typeName: string)

  /** The `condition` strings: "==", "!=", ">", ">=", "<", "<=", "any", "except". */
  datatype Cond = Eq | Ne | Gt | Ge | Lt | Le | Any | Except

  /** One filterable payload field; `condition == None` means index-only. */
  datatype FilterableField = FilterableField(
    name: string,
    description: string,
    fieldType: FieldType,
    condition: Option<Cond> := None,
    required: bool := false)

  /** A registry: field name -> field, in declaration order. */
  type Registry = Dict<string, FilterableField>

  /**
   * The types the `Literal` annotation of `FilterableField.field_type`
   * admits as written: "text" is missing, although the filter compiler, the
   * index planner and the Outlook catalog all use it.
   */
  predicate DeclaredFieldType(t: FieldType) {
    t == Keyword || t == Integer || t == Float || t == Boolean
  }

  /** The annotation with "text" added: the five types the rest of the program handles. */
  predicate DeclaredFieldTypeCorrected(t: FieldType) {
    DeclaredFieldType(t) || t == Text
  }

  /** The types the filter compiler and the index planner handle. */
  predicate CompilableFieldType(t: FieldType) {
    !t.Unsupported?
  }

  /**
   * As written, the declaration admits a strict subset of what the compiler
   * handles, and the one type missing is text; the corrected declaration
   * admits exactly what the compiler handles.
   */
  lemma DeclaredTypesAreCompilable(t: FieldType)
    ensures DeclaredFieldType(t) ==> CompilableFieldType(t)
    ensures CompilableFieldType(t) && !DeclaredFieldType(t) <==> t == Text
    ensures DeclaredFieldTypeCorrected(t) <==> CompilableFieldType(t)
  {
  }

  /** The payload key a field is filtered and indexed under. */
  function MetadataKey(name: string): (key: string)
    ensures |key| == |METADATA_PATH| + 1 + |name|
    ensures key[..|METADATA_PATH| + 1] == "metadata."
    ensures key[|METADATA_PATH| + 1..] == name
  {
    METADATA_PATH + "." + name
  }

  /** Distinct field names give distinct payload keys. */
  lemma MetadataKeyInjective(a: string, b: string)
    ensures MetadataKey(a) == MetadataKey(b) ==> a == b
  {
    assert a == MetadataKey(a)[|METADATA_PATH| + 1..];
  }

  predicate DistinctNames(fs: seq<FilterableField>) {
    forall i, j :: 0 <= i < j < |fs| ==> fs[i].name != fs[j].name
  }

  /** `{field.name: field for field in fs}`. */
  function FieldsByName(fs: seq<FilterableField>): (r: Registry)
    ensures UniqueKeys(r)
  {
    if |fs| == 0 then []
    else Put(FieldsByName(fs[..|fs| - 1]), fs[|fs| - 1].name, fs[|fs| - 1])
  }

  /** Whatever the registry holds under a name is a field of the list with that name. */
  lemma {:induction false} FieldsByNameSound(fs: seq<FilterableField>, k: string)
    ensures Get(FieldsByName(fs), k).Some? ==>
      Get(FieldsByName(fs), k).value in fs && Get(FieldsByName(fs), k).value.name == k
  {
    if |fs| > 0 && k != fs[|fs| - 1].name {
      FieldsByNameSound(fs[..|fs| - 1], k);
    }
  }

  /** Every field of the list is reachable under its name. */
  lemma {:induction false} FieldsByNameComplete(fs: seq<FilterableField>, f: FilterableField)
    requires f in fs
    ensures HasKey(FieldsByName(fs), f.name)
  {
    var last := fs[|fs| - 1];
    if f != last || f.name != last.name {
      if f.name != last.name {
        assert f in fs[..|fs| - 1];
        FieldsByNameComplete(fs[..|fs| - 1], f);
        assert Get(FieldsByName(fs[..|fs| - 1]), f.name).Some?;
      }
    }
  }

  /** With distinct names, the dictionary lists every field under its own name, in order. */
  lemma {:induction false} FieldsByNameDistinct(fs: seq<FilterableField>)
    requires DistinctNames(fs)
    ensures |FieldsByName(fs)| == |fs|
    ensures forall i :: 0 <= i < |fs| ==> FieldsByName(fs)[i] == (fs[i].name, fs[i])
  {
    if |fs| > 0 {
      var prefix := fs[..|fs| - 1];
      FieldsByNameDistinct(prefix);
      var last := fs[|fs| - 1];
      assert !HasKey(FieldsByName(prefix), last.name) by {
        forall i | 0 <= i < |prefix| ensures Keys(FieldsByName(prefix))[i] != last.name {
          assert FieldsByName(prefix)[i] == (fs[i].name, fs[i]);
        }
      }
    }
  }

  /** Each field of a list with distinct names is found under its own name. */
  lemma FieldsByNameLookup(fs: seq<FilterableField>, i: nat)
    requires DistinctNames(fs) && i < |fs|
    ensures Get(FieldsByName(fs), fs[i].name) == Some(fs[i])
  {
    FieldsByNameDistinct(fs);
    GetAt(FieldsByName(fs), i);
  }

  /** When only the first field is required, a registered field is required exactly when it is the first. */
  lemma OnlyFirstRequired(fs: seq<FilterableField>, k: string)
    requires |fs| > 0 && DistinctNames(fs)
    requires forall i :: 0 <= i < |fs| ==> (fs[i].required <==> i == 0)
    ensures Get(FieldsByName(fs), k).Some? ==> (Get(FieldsByName(fs), k).value.required <==> k == fs[0].name)
  {
    FieldsByNameSound(fs, k);
    if Get(FieldsByName(fs), k).Some? {
      var j :| 0 <= j < |fs| && fs[j] == Get(FieldsByName(fs), k).value;
    }
  }

  /** Every entry of a name-keyed registry is a field of the list, stored under its own name. */
  lemma RegistryEntryFromList(fs: seq<FilterableField>, i: nat)
    requires i < |FieldsByName(fs)|
    ensures FieldsByName(fs)[i].1 in fs && FieldsByName(fs)[i].1.name == FieldsByName(fs)[i].0
  {
    GetAt(FieldsByName(fs), i);
    FieldsByNameSound(fs, FieldsByName(fs)[i].0);
  }

  /** The fields that carry a condition, in order. */
  function Conditioned(fs: seq<FilterableField>): (r: seq<FilterableField>)
    ensures forall f :: f in r <==> f in fs && f.condition.Some?
  {
    if |fs| == 0 then []
    else
      var prev := Conditioned(fs[..|fs| - 1]);
      var last := fs[|fs| - 1];
      assert forall f :: f in fs <==> f in fs[..|fs| - 1] || f == last;
      if last.condition.Some? then prev + [last] else prev
  }

  /** When the conditioned fields come first and the index-only ones after, `Conditioned` is a prefix. */
  lemma {:induction false} ConditionedPrefix(fs: seq<FilterableField>, n: nat)
    requires n <= |fs|
    requires forall i :: 0 <= i < |fs| ==> (fs[i].condition.Some? <==> i < n)
    ensures Conditioned(fs) == fs[..n]
  {
    if |fs| > n {
      ConditionedPrefix(fs[..|fs| - 1], n);
      assert fs[..|fs| - 1][..n] == fs[..n];
    } else if |fs| > 0 {
      ConditionedPrefix(fs[..|fs| - 1], n - 1);
      assert fs[..|fs| - 1][..n - 1] + [fs[|fs| - 1]] == fs[..n];
    }
  }

  lemma {:induction false} ConditionedKeepsDistinctNames(fs: seq<FilterableField>)
    requires DistinctNames(fs)
    ensures DistinctNames(Conditioned(fs))
  {
    if |fs| > 0 {
      ConditionedKeepsDistinctNames(fs[..|fs| - 1]);
    }
  }

  /** `{field.name: field for field in fs if field.condition is not None}`. */
  function FieldsWithConditions(fs: seq<FilterableField>): (r: Registry)
    ensures UniqueKeys(r)
  {
    FieldsByName(Conditioned(fs))
  }

  /**
   * When the fields with a condition are the first `n`, the registry of
   * conditioned fields lists exactly those, in order, under their names.
   */
  lemma ConditionedPrefixRegistry(fs: seq<FilterableField>, n: nat)
    requires n <= |fs| && DistinctNames(fs)
    requires forall i :: 0 <= i < |fs| ==> (fs[i].condition.Some? <==> i < n)
    ensures FieldsWithConditions(fs) == FieldsByName(fs[..n])
    ensures |FieldsWithConditions(fs)| == n
    ensures forall i :: 0 <= i < n ==> FieldsWithConditions(fs)[i] == (fs[i].name, fs[i])
  {
    ConditionedPrefix(fs, n);
    var exposed := fs[..n];
    assert DistinctNames(exposed);
    FieldsByNameDistinct(exposed);
  }

  lemma SameNameSameField(fs: seq<FilterableField>, f: FilterableField, g: FilterableField)
    requires DistinctNames(fs) && f in fs && g in fs && f.name == g.name
    ensures f == g
  {
    var i :| 0 <= i < |fs| && fs[i] == f;
    var j :| 0 <= j < |fs| && fs[j] == g;
    assert !(i < j) && !(j < i);
  }

  /** What `FieldsWithConditions` keeps of a lookup in `FieldsByName`. */
  function KeepIfConditioned(found: Option<FilterableField>): Option<FilterableField> {
    if found.Some? && found.value.condition.Some? then found else None
  }

  /**
   * For a list with distinct names the conditions-only registry is exactly the
   * full registry restricted to the fields that have a condition.
   */
  lemma FieldsWithConditionsIsRestriction(fs: seq<FilterableField>, k: string)
    requires DistinctNames(fs)
    ensures Get(FieldsWithConditions(fs), k) == KeepIfConditioned(Get(FieldsByName(fs), k))
  {
    var cs := Conditioned(fs);
    ConditionedKeepsDistinctNames(fs);
    FieldsByNameSound(fs, k);
    FieldsByNameSound(cs, k);
    var full := Get(FieldsByName(fs), k);
    var sub := Get(FieldsByName(cs), k);
    if sub.Some? {
      FieldsByNameComplete(fs, sub.value);
      assert full.Some?;
      SameNameSameField(fs, full.value, sub.value);
    } else if full.Some? && full.value.condition.Some? {
      assert full.value in cs;
      FieldsByNameComplete(cs, full.value);
    }
  }

  /** Settings of the Qdrant connector (environment parsing is not modelled). */
  datatype QdrantSettings = QdrantSettings(
    location: Option<string> := None,
    apiKey: Option<string> := None,
    collectionName: Option<string> := None,
    localPath: Option<string> := None,
    searchLimit: int := 10,
    readOnly: bool := false,
    filterableFields: Option<seq<FilterableField>> := None,
    allowArbitraryFilter: bool := false,
    enterpriseMode: bool := false)

  /**
   * The field list a registry is built from. `enterprise` is the enterprise
   * catalog, or None when importing it fails.
   */
  function SelectedFields(s: QdrantSettings, enterprise: Option<seq<FilterableField>>): seq<FilterableField> {
    if s.enterpriseMode then (if enterprise.Some? then enterprise.value else [])
    else if s.filterableFields.None? then []
    else s.filterableFields.value
  }

  /** `QdrantSettings.filterable_fields_dict`. */
  function FilterableFieldsDict(s: QdrantSettings, enterprise: Option<seq<FilterableField>>): (r: Registry)
    ensures s.enterpriseMode && enterprise.Some? ==> r == FieldsByName(enterprise.value)
    ensures s.enterpriseMode && enterprise.None? ==> r == []
    ensures !s.enterpriseMode && s.filterableFields.None? ==> r == []
    ensures !s.enterpriseMode && s.filterableFields.Some? ==> r == FieldsByName(s.filterableFields.value)
  {
    FieldsByName(SelectedFields(s, enterprise))
  }

  /** `QdrantSettings.filterable_fields_dict_with_conditions`. */
  function FilterableFieldsDictWithConditions(s: QdrantSettings, enterprise: Option<seq<FilterableField>>): (r: Registry)
    ensures s.enterpriseMode && enterprise.Some? ==> r == FieldsWithConditions(enterprise.value)
    ensures s.enterpriseMode && enterprise.None? ==> r == []
    ensures !s.enterpriseMode && s.filterableFields.None? ==> r == []
    ensures !s.enterpriseMode && s.filterableFields.Some? ==> r == FieldsWithConditions(s.filterableFields.value)
  {
    FieldsWithConditions(SelectedFields(s, enterprise))
  }

  /**
   * The model validator `check_local_path_conflict`: a (non-empty) local path
   * excludes a location and an API key; otherwise the settings pass unchanged.
   */
  function CheckLocalPathConflict(s: QdrantSettings): (r: Result<QdrantSettings, string>)
    ensures r.Success? ==> r.value == s
    ensures r.Failure? <==>
      (s.localPath.Some? && s.localPath.value != "" && (s.location.Some? || s.apiKey.Some?))
  {
    if s.localPath.Some? && s.localPath.value != "" then
      if s.location.Some? || s.apiKey.Some? then
        Failure("If 'local_path' is set, 'location' and 'api_key' must be None.")
      else Success(s)
    else Success(s)
  }

  datatype ToolSettings = ToolSettings(
    toolStoreDescription: string := DEFAULT_TOOL_STORE_DESCRIPTION,
    toolFindDescription: string := DEFAULT_TOOL_FIND_DESCRIPTION,
    enterpriseMode: bool := false)

  /** The find tool's description: fixed in enterprise mode, configurable otherwise. */
  function GetEffectiveFindDescription(t: ToolSettings): (r: string)
    ensures t.enterpriseMode ==> r == ENTERPRISE_TOOL_SEARCH_DESCRIPTION
    ensures !t.enterpriseMode ==> r == t.toolFindDescription
  {
    if t.enterpriseMode then ENTERPRISE_TOOL_SEARCH_DESCRIPTION else t.toolFindDescription
  }
}
