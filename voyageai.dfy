/**
 * The VoyageAI embedding provider: the model-to-dimension table, the vector
 * size it gives a model, and the vector name derived from the model name.
 * The client and its two embedding calls are not part of this model; a
 * caller receives the embedding of a query as a parameter.
 */
module VoyageAI {
  import opened Wrappers
  import opened PyDict
  import opened Values

  const DEFAULT_MODEL: string := "voyage-3.5"

  /** Dimension assumed for a model missing from the table. */
  const DEFAULT_DIMENSION: nat := 1024

  const VOYAGE_AI_MODEL_DIMENSIONS: Dict<string, nat> := [
    ("voyage-3-large", 1024),
    ("voyage-3.5", 1024),
    ("voyage-3.5-lite", 1024),
    ("voyage-code-3", 1024),
    ("voyage-finance-2", 1024),
    ("voyage-law-2", 1024),
    ("voyage-code-2", 1536),
    ("voyage-3", 1024),
    ("voyage-3-lite", 512),
    ("voyage-multilingual-2", 1024),
    ("voyage-large-2-instruct", 1024),
    ("voyage-large-2", 1024),
    ("voyage-2", 1024)
  ]

  /** `get_vector_size`: the table's dimension, or the default for an unknown model. */
  function VectorSize(modelName: string): (size: nat)
    ensures HasKey(VOYAGE_AI_MODEL_DIMENSIONS, modelName) ==> Get(VOYAGE_AI_MODEL_DIMENSIONS, modelName) == Some(size)
    ensures !HasKey(VOYAGE_AI_MODEL_DIMENSIONS, modelName) ==> size == DEFAULT_DIMENSION
  {
    GetOr(VOYAGE_AI_MODEL_DIMENSIONS, modelName, DEFAULT_DIMENSION)
  }

  /** `get_vector_name`: drop every "voyage-", turn every "." into "-", and prefix "voyage-". */
  function VectorName(modelName: string): string {
    "voyage-" + ReplaceAll(ReplaceAll(modelName, "voyage-", ""), ".", "-")
  }

  /** Replacing a one-character pattern by text without that character removes it everywhere. */
  lemma {:induction false} ReplaceAllRemovesChar(s: string, c: char, rep: string)
    requires c !in rep
    ensures c !in ReplaceAll(s, [c], rep)
    decreases |s|
  {
    if |s| >= 1 {
      ReplaceAllRemovesChar(s[1..], c, rep);
      if s[..1] != [c] {
        assert s[0] != c;
      }
    }
  }

  /** Every vector name starts with "voyage-" and contains no ".". */
  lemma VectorNameShape(modelName: string)
    ensures VectorName(modelName)[..7] == "voyage-"
    ensures '.' !in VectorName(modelName)
  {
    ReplaceAllRemovesChar(ReplaceAll(modelName, "voyage-", ""), '.', "-");
  }

  /** Every dimension in the table is positive, so every size the provider reports is. */
  lemma VectorSizePositive(modelName: string)
    ensures VectorSize(modelName) > 0
  {
    assert forall i :: 0 <= i < |VOYAGE_AI_MODEL_DIMENSIONS| ==> VOYAGE_AI_MODEL_DIMENSIONS[i].1 > 0;
    LookupPositive(VOYAGE_AI_MODEL_DIMENSIONS, modelName, DEFAULT_DIMENSION);
  }

  lemma LookupPositive(d: Dict<string, nat>, k: string, default: nat)
    requires default > 0 && forall i :: 0 <= i < |d| ==> d[i].1 > 0
    ensures GetOr(d, k, default) > 0
  {
    if HasKey(d, k) {
      var i := GetWitness(d, k);
    }
  }

  lemma TableKeysDistinct()
    ensures UniqueKeys(VOYAGE_AI_MODEL_DIMENSIONS)
  {
  }

  /** The dimensions the table gives the models the integration cases name. */
  lemma KnownVectorSizes()
    ensures VectorSize("voyage-3.5") == 1024
    ensures VectorSize("voyage-code-3") == 1024
    ensures VectorSize("voyage-law-2") == 1024
    ensures VectorSize("voyage-code-2") == 1536
    ensures VectorSize("voyage-3-lite") == 512
  {
    TableKeysDistinct();
    GetAt(VOYAGE_AI_MODEL_DIMENSIONS, 1);
    GetAt(VOYAGE_AI_MODEL_DIMENSIONS, 3);
    GetAt(VOYAGE_AI_MODEL_DIMENSIONS, 5);
    GetAt(VOYAGE_AI_MODEL_DIMENSIONS, 6);
    GetAt(VOYAGE_AI_MODEL_DIMENSIONS, 8);
  }

  /**
   * Every model in the table is named "voyage-…", so any other model name,
   * such as "unknown-model", gets the default dimension.
   */
  lemma UnknownModelSize(modelName: string)
    ensures (|modelName| < 7 || modelName[..7] != "voyage-") ==> VectorSize(modelName) == DEFAULT_DIMENSION
    ensures VectorSize("unknown-model") == DEFAULT_DIMENSION
  {
    TableModelsVoyage();
    if |modelName| < 7 || modelName[..7] != "voyage-" {
      assert !HasKey(VOYAGE_AI_MODEL_DIMENSIONS, modelName) by {
        forall i | 0 <= i < |VOYAGE_AI_MODEL_DIMENSIONS|
          ensures Keys(VOYAGE_AI_MODEL_DIMENSIONS)[i] != modelName
        {
          assert Keys(VOYAGE_AI_MODEL_DIMENSIONS)[i] == VOYAGE_AI_MODEL_DIMENSIONS[i].0;
        }
      }
    }
    assert "unknown-model"[..7] != "voyage-" by {
      assert "unknown-model"[0] == 'u';
    }
    assert !HasKey(VOYAGE_AI_MODEL_DIMENSIONS, "unknown-model") by {
      forall i | 0 <= i < |VOYAGE_AI_MODEL_DIMENSIONS|
        ensures Keys(VOYAGE_AI_MODEL_DIMENSIONS)[i] != "unknown-model"
      {
        assert Keys(VOYAGE_AI_MODEL_DIMENSIONS)[i] == VOYAGE_AI_MODEL_DIMENSIONS[i].0;
      }
    }
  }

  lemma TableModelsVoyage()
    ensures forall i :: 0 <= i < |VOYAGE_AI_MODEL_DIMENSIONS| ==>
      |VOYAGE_AI_MODEL_DIMENSIONS[i].0| >= 7 && VOYAGE_AI_MODEL_DIMENSIONS[i].0[..7] == "voyage-"
  {
  }

  /**
   * The name depends only on the model name with its "voyage-" removed, so
   * a model and its short spelling share one named vector.
   */
  lemma VectorNameIgnoresPrefix(shortName: string)
    ensures VectorName("voyage-" + shortName) == VectorName(shortName)
  {
    var s := "voyage-" + shortName;
    assert s[..|"voyage-"|] == "voyage-" && s[|"voyage-"|..] == shortName;
    assert ReplaceAll(s, "voyage-", "") == "" + ReplaceAll(shortName, "voyage-", "");
    assert "" + ReplaceAll(shortName, "voyage-", "") == ReplaceAll(shortName, "voyage-", "");
  }

  lemma DefaultModelVectorName()
    ensures VectorName(DEFAULT_MODEL) == "voyage-3-5"
  {
    VectorNameIgnoresPrefix("3.5");
    assert "voyage-" + "3.5" == DEFAULT_MODEL;
    assert ReplaceAll("3.5", "voyage-", "") == "3.5";
    assert "3.5" == "3" + ("." + "5");
    ReplaceAllCharAppend("3", "." + "5", '.', "-");
    ReplaceAllCharAppend(".", "5", '.', "-");
    ReplaceAllAbsentLead("3", ".", "-");
    ReplaceAllAbsentLead("5", ".", "-");
    assert ReplaceAll(".", ".", "-") == "-" + ReplaceAll("", ".", "-");
  }

  lemma CodeModelVectorName()
    ensures VectorName("voyage-code-3") == "voyage-code-3"
  {
    VectorNameIgnoresPrefix("code-3");
    assert "voyage-" + "code-3" == "voyage-code-3";
    ReplaceAllAbsentLead("code-3", "voyage-", "");
    ReplaceAllAbsentLead("code-3", ".", "-");
  }

  lemma LawModelVectorName()
    ensures VectorName("voyage-law-2") == "voyage-law-2"
  {
    VectorNameIgnoresPrefix("law-2");
    assert "voyage-" + "law-2" == "voyage-law-2";
    ReplaceAllAbsentLead("law-2", "voyage-", "");
    ReplaceAllAbsentLead("law-2", ".", "-");
  }

  lemma LargeModelVectorName()
    ensures VectorName("voyage-3-large") == "voyage-3-large"
  {
    VectorNameIgnoresPrefix("3-large");
    assert "voyage-" + "3-large" == "voyage-3-large";
    ReplaceAllAbsentLead("3-large", "voyage-", "");
    ReplaceAllAbsentLead("3-large", ".", "-");
  }

  /** Four models of the table get four different named vectors. */
  lemma DistinctVectorNames()
    ensures VectorName(DEFAULT_MODEL) != VectorName("voyage-code-3")
    ensures VectorName(DEFAULT_MODEL) != VectorName("voyage-law-2")
    ensures VectorName(DEFAULT_MODEL) != VectorName("voyage-3-large")
    ensures VectorName("voyage-code-3") != VectorName("voyage-law-2")
    ensures VectorName("voyage-code-3") != VectorName("voyage-3-large")
    ensures VectorName("voyage-law-2") != VectorName("voyage-3-large")
  {
    DefaultModelVectorName();
    CodeModelVectorName();
    LawModelVectorName();
    LargeModelVectorName();
  }
}
