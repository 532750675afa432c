/**
 * The field catalog for code search over indexed GitHub repositories:
 * repository scoping (required), semantic themes, file and code
 * characteristics, version control, and four index-only fields.
 */
module EnterpriseConfig {
  import opened Wrappers
  import opened PyDict
  import opened Values
  import opened Settings
  import opened Filters

  // Field descriptions, shown to clients in the tool parameter documentation.
  const REPOSITORY_ID_DESCRIPTION: string :=
    "Repository identifier in format 'owner/repo' (e.g., 'taika-st/dtna-chat')"
  const THEMES_DESCRIPTION: string :=
    "Code themes/patterns array - searches for any matching theme (e.g., 'authentication', 'database', 'frontend', 'api')"
  const PROGRAMMING_LANGUAGE_DESCRIPTION: string :=
    "Programming language (e.g., 'typescript', 'python', 'javascript', 'rust')"
  const FILE_TYPE_DESCRIPTION: string :=
    "File extension/type (e.g., 'ts', 'py', 'js', 'md')"
  const DIRECTORY_DESCRIPTION: string :=
    "Directory path within repository (e.g., 'src/lib/auth', 'components/ui')"
  const FILE_NAME_DESCRIPTION: string :=
    "Specific file name (e.g., 'schema.pg.ts', 'auth.py')"
  const HAS_CODE_PATTERNS_DESCRIPTION: string :=
    "Whether file contains identifiable code patterns (true/false)"
  const HAS_COMMENTS_DESCRIPTION: string :=
    "Whether file contains comments (true/false)"
  const COMPLEXITY_SCORE_DESCRIPTION: string :=
    "Minimum code complexity score (integer, higher = more complex)"
  const SIZE_DESCRIPTION: string :=
    "Minimum file size in bytes"
  const LINE_COUNT_DESCRIPTION: string :=
    "Minimum number of lines in the code chunk"
  const WORD_COUNT_DESCRIPTION: string :=
    "Minimum word count in the code chunk"
  const BRANCH_DESCRIPTION: string :=
    "Git branch name (e.g., 'main', 'develop', 'feature/auth')"
  const SHA_DESCRIPTION: string :=
    "Git commit SHA hash"
  const CONTENT_TYPE_DESCRIPTION: string :=
    "Content type classification (code, docs, config, etc.)"
  const DOCUMENT_ID_DESCRIPTION: string :=
    "Unique document identifier"
  const CHUNK_LENGTH_DESCRIPTION: string :=
    "Length of the text chunk"
  const START_INDEX_DESCRIPTION: string :=
    "Starting position of chunk within file"

  const ENTERPRISE_FILTERABLE_FIELDS: seq<FilterableField> := [
    FilterableField("repository_id", REPOSITORY_ID_DESCRIPTION, Keyword, condition := Some(Eq), required := true),
    FilterableField("themes", THEMES_DESCRIPTION, Keyword, condition := Some(Any)),
    FilterableField("programming_language", PROGRAMMING_LANGUAGE_DESCRIPTION, Keyword, condition := Some(Eq)),
    FilterableField("file_type", FILE_TYPE_DESCRIPTION, Keyword, condition := Some(Eq)),
    FilterableField("directory", DIRECTORY_DESCRIPTION, Keyword, condition := Some(Eq)),
    FilterableField("file_name", FILE_NAME_DESCRIPTION, Keyword, condition := Some(Eq)),
    FilterableField("has_code_patterns", HAS_CODE_PATTERNS_DESCRIPTION, Boolean, condition := Some(Eq)),
    FilterableField("has_comments", HAS_COMMENTS_DESCRIPTION, Boolean, condition := Some(Eq)),
    FilterableField("complexity_score", COMPLEXITY_SCORE_DESCRIPTION, Integer, condition := Some(Ge)),
    FilterableField("size", SIZE_DESCRIPTION, Integer, condition := Some(Ge)),
    FilterableField("line_count", LINE_COUNT_DESCRIPTION, Integer, condition := Some(Ge)),
    FilterableField("word_count", WORD_COUNT_DESCRIPTION, Integer, condition := Some(Ge)),
    FilterableField("branch", BRANCH_DESCRIPTION, Keyword, condition := Some(Eq)),
    FilterableField("sha", SHA_DESCRIPTION, Keyword, condition := Some(Eq)),
    FilterableField("content_type", CONTENT_TYPE_DESCRIPTION, Keyword),
    FilterableField("document_id", DOCUMENT_ID_DESCRIPTION, Keyword),
    FilterableField("chunk_length", CHUNK_LENGTH_DESCRIPTION, Integer),
    FilterableField("start_index", START_INDEX_DESCRIPTION, Integer)
  ]

  /** The fields exposed as tool parameters: the first fourteen; the last four are index-only. */
  const EXPOSED_COUNT: nat := 14

  /** `get_enterprise_filterable_fields_dict`. */
  function EnterpriseFieldsDict(): Registry {
    FieldsByName(ENTERPRISE_FILTERABLE_FIELDS)
  }

  /** `get_enterprise_filterable_fields_with_conditions`. */
  function EnterpriseFieldsWithConditions(): Registry {
    FieldsWithConditions(ENTERPRISE_FILTERABLE_FIELDS)
  }

  /** Eighteen fields with distinct names; each type is one the field declaration admits. */
  lemma CatalogFieldsDistinct()
    ensures |ENTERPRISE_FILTERABLE_FIELDS| == 18
    ensures DistinctNames(ENTERPRISE_FILTERABLE_FIELDS)
  {
  }

  lemma CatalogFieldsCompatible()
    ensures forall i :: 0 <= i < |ENTERPRISE_FILTERABLE_FIELDS| ==>
      Compatible(ENTERPRISE_FILTERABLE_FIELDS[i]) && DeclaredFieldType(ENTERPRISE_FILTERABLE_FIELDS[i].fieldType)
  {
  }

  lemma CatalogConditionsFirst()
    ensures forall i :: 0 <= i < |ENTERPRISE_FILTERABLE_FIELDS| ==>
      (ENTERPRISE_FILTERABLE_FIELDS[i].condition.Some? <==> i < EXPOSED_COUNT)
  {
  }

  lemma CatalogRequiredFirst()
    ensures forall i :: 0 <= i < |ENTERPRISE_FILTERABLE_FIELDS| ==>
      (ENTERPRISE_FILTERABLE_FIELDS[i].required <==> i == 0)
  {
  }

  /** The full registry lists the catalog in order, each field under its own name. */
  lemma EnterpriseDictListsCatalog()
    ensures |EnterpriseFieldsDict()| == |ENTERPRISE_FILTERABLE_FIELDS|
    ensures forall i :: 0 <= i < |ENTERPRISE_FILTERABLE_FIELDS| ==>
      EnterpriseFieldsDict()[i] == (ENTERPRISE_FILTERABLE_FIELDS[i].name, ENTERPRISE_FILTERABLE_FIELDS[i])
  {
    CatalogFieldsDistinct();
    FieldsByNameDistinct(ENTERPRISE_FILTERABLE_FIELDS);
  }

  /** The exposed registry is the first fourteen fields, in order. */
  lemma ExposedDictListsFirstFourteen()
    ensures EnterpriseFieldsWithConditions() == FieldsByName(ENTERPRISE_FILTERABLE_FIELDS[..EXPOSED_COUNT])
    ensures |EnterpriseFieldsWithConditions()| == EXPOSED_COUNT
    ensures forall i :: 0 <= i < EXPOSED_COUNT ==>
      EnterpriseFieldsWithConditions()[i] == (ENTERPRISE_FILTERABLE_FIELDS[i].name, ENTERPRISE_FILTERABLE_FIELDS[i])
  {
    CatalogFieldsDistinct();
    CatalogConditionsFirst();
    ConditionedPrefixRegistry(ENTERPRISE_FILTERABLE_FIELDS, EXPOSED_COUNT);
  }

  /** The fields the code-search tools fill in: their positions, types and conditions. */
  lemma ToolFieldAttributes()
    ensures ENTERPRISE_FILTERABLE_FIELDS[0].name == "repository_id"
      && ENTERPRISE_FILTERABLE_FIELDS[0].fieldType == Keyword && ENTERPRISE_FILTERABLE_FIELDS[0].condition == Some(Eq)
    ensures ENTERPRISE_FILTERABLE_FIELDS[1].name == "themes"
      && ENTERPRISE_FILTERABLE_FIELDS[1].fieldType == Keyword && ENTERPRISE_FILTERABLE_FIELDS[1].condition == Some(Any)
    ensures ENTERPRISE_FILTERABLE_FIELDS[2].name == "programming_language"
      && ENTERPRISE_FILTERABLE_FIELDS[2].fieldType == Keyword && ENTERPRISE_FILTERABLE_FIELDS[2].condition == Some(Eq)
    ensures ENTERPRISE_FILTERABLE_FIELDS[4].name == "directory"
      && ENTERPRISE_FILTERABLE_FIELDS[4].fieldType == Keyword && ENTERPRISE_FILTERABLE_FIELDS[4].condition == Some(Eq)
    ensures ENTERPRISE_FILTERABLE_FIELDS[8].name == "complexity_score"
      && ENTERPRISE_FILTERABLE_FIELDS[8].fieldType == Integer && ENTERPRISE_FILTERABLE_FIELDS[8].condition == Some(Ge)
  {
  }

  /** Each exposed field is found under its own name in the exposed registry. */
  lemma ExposedLookup(i: nat)
    requires i < EXPOSED_COUNT
    ensures Get(EnterpriseFieldsWithConditions(), ENTERPRISE_FILTERABLE_FIELDS[i].name) == Some(ENTERPRISE_FILTERABLE_FIELDS[i])
  {
    ExposedDictListsFirstFourteen();
    GetAt(EnterpriseFieldsWithConditions(), i);
  }

  /**
   * `repository_id` is the one required field: it is a keyword matched with
   * `==`, and every other registered field is optional.
   */
  lemma OnlyRepositoryIdRequired(k: string)
    ensures Get(EnterpriseFieldsDict(), "repository_id") == Some(ENTERPRISE_FILTERABLE_FIELDS[0])
    ensures ENTERPRISE_FILTERABLE_FIELDS[0] == FilterableField("repository_id", REPOSITORY_ID_DESCRIPTION, Keyword, Some(Eq), true)
    ensures Get(EnterpriseFieldsDict(), k).Some? ==> (Get(EnterpriseFieldsDict(), k).value.required <==> k == "repository_id")
  {
    CatalogFieldsDistinct();
    CatalogRequiredFirst();
    FieldsByNameLookup(ENTERPRISE_FILTERABLE_FIELDS, 0);
    OnlyFirstRequired(ENTERPRISE_FILTERABLE_FIELDS, k);
  }

  /** A field is exposed as a tool parameter exactly when it is registered and has a condition. */
  lemma ExposedIsConditionedRestriction(k: string)
    ensures Get(EnterpriseFieldsWithConditions(), k) == KeepIfConditioned(Get(EnterpriseFieldsDict(), k))
  {
    CatalogFieldsDistinct();
    FieldsWithConditionsIsRestriction(ENTERPRISE_FILTERABLE_FIELDS, k);
  }

  lemma IndexOnlyFieldNames()
    ensures ENTERPRISE_FILTERABLE_FIELDS[EXPOSED_COUNT..] == [ENTERPRISE_FILTERABLE_FIELDS[14], ENTERPRISE_FILTERABLE_FIELDS[15],
      ENTERPRISE_FILTERABLE_FIELDS[16], ENTERPRISE_FILTERABLE_FIELDS[17]]
    ensures ENTERPRISE_FILTERABLE_FIELDS[14].name == "content_type" && ENTERPRISE_FILTERABLE_FIELDS[15].name == "document_id"
    ensures ENTERPRISE_FILTERABLE_FIELDS[16].name == "chunk_length" && ENTERPRISE_FILTERABLE_FIELDS[17].name == "start_index"
  {
  }

  /** The four index-only fields are registered (and so indexed) but not exposed. */
  lemma IndexOnlyFieldHidden(i: nat)
    requires EXPOSED_COUNT <= i < |ENTERPRISE_FILTERABLE_FIELDS|
    ensures HasKey(EnterpriseFieldsDict(), ENTERPRISE_FILTERABLE_FIELDS[i].name)
    ensures !HasKey(EnterpriseFieldsWithConditions(), ENTERPRISE_FILTERABLE_FIELDS[i].name)
  {
    CatalogFieldsDistinct();
    CatalogConditionsFirst();
    FieldsByNameLookup(ENTERPRISE_FILTERABLE_FIELDS, i);
    ExposedIsConditionedRestriction(ENTERPRISE_FILTERABLE_FIELDS[i].name);
  }

  /**
   * Tool arguments checked against the exposed registry can only fail on an
   * unknown name or a null `repository_id`: no condition or type error can occur.
   */
  lemma ExposedFieldsFailOnlyOnLookup(values: Dict<string, Value>)
    ensures Compile(EnterpriseFieldsWithConditions(), values).Failure? ==>
      Compile(EnterpriseFieldsWithConditions(), values).error.NotFilterable?
      || Compile(EnterpriseFieldsWithConditions(), values).error == RequiredMissing("repository_id")
  {
    var reg := EnterpriseFieldsWithConditions();
    ExposedDictListsFirstFourteen();
    CatalogFieldsCompatible();
    CatalogRequiredFirst();
    assert forall i :: 0 <= i < |reg| ==> Compatible(reg[i].1);
    CompatibleRegistryFailsOnlyOnLookup(reg, values);
    CompileFailsAtFirstBadEntry(reg, values);
    if Compile(reg, values).Failure? && Compile(reg, values).error.RequiredMissing? {
      var e := Compile(reg, values).error;
      var i :| 0 <= i < |values| && Step(reg, values[i].0, values[i].1) == Failure(e);
      ExposedRequiredIsRepository(values[i].0, values[i].1);
    }
  }

  /** In the exposed registry only `repository_id` is required. */
  lemma ExposedRequiredIsRepository(name: string, v: Value)
    ensures (Step(EnterpriseFieldsWithConditions(), name, v).Failure?
        && Step(EnterpriseFieldsWithConditions(), name, v).error.RequiredMissing?) ==>
      Step(EnterpriseFieldsWithConditions(), name, v).error == RequiredMissing("repository_id")
  {
    var reg := EnterpriseFieldsWithConditions();
    StepErrorCauses(reg, name, v);
    if Step(reg, name, v).Failure? && Step(reg, name, v).error.RequiredMissing? {
      ExposedDictListsFirstFourteen();
      CatalogRequiredFirst();
      var j := GetWitness(reg, name);
      assert reg[j] == (ENTERPRISE_FILTERABLE_FIELDS[j].name, ENTERPRISE_FILTERABLE_FIELDS[j]);
      assert ENTERPRISE_FILTERABLE_FIELDS[j].required;
      assert j == 0;
    }
  }
}
