/**
 * The filter compiler (`make_filter`) and the index planner (`make_indexes`):
 * a registry of filterable fields plus a map of caller values becomes a
 * three-bucket filter, and the registry becomes a payload-index plan.
 */
module Filters {
  import opened Wrappers
  import opened PyDict
  import opened Values
  import opened Settings

  /** `models.Range`; the compiler always sets exactly one bound. */
  datatype Range = Range(
    gt: Option<Value> := None,
    gte: Option<Value> := None,
    lt: Option<Value> := None,
    lte: Option<Value> := None)

  /** `models.MatchValue`, `MatchAny`, `MatchExcept`, `MatchText`. */
  datatype Match =
    | MatchValue(value: Value)
    | MatchAny(any: Value)
    | MatchExcept(except: Value)
    | MatchText(text: string)

  datatype FieldTest = ByMatch(m: Match) | ByRange(range: Range)

  /**
   * A filter condition. The compiler only produces field conditions; a filter
   * supplied by a caller may also hold other condition kinds (nested filters,
   * id or emptiness tests), which are carried through unchanged.
   */
  datatype Condition =
    | FieldCondition(key: string, test: FieldTest)
    | OtherCondition(tag: string)

  /** A bucket of `models.Filter`: absent, one condition, or a list. */
  datatype Bucket = Absent | Single(condition: Condition) | Several(conditions: seq<Condition>)

  /** `models.Filter` with its three buckets. */
  datatype Filter = Filter(must: Bucket := Absent, should: Bucket := Absent, mustNot: Bucket := Absent)

  /** The `ValueError`s the compiler and the planner raise. */
  datatype FilterError =
    | NotFilterable(field: string)
    | RequiredMissing(field: string)
    | InvalidCondition(cond: Cond, fieldType: FieldType, key: string)
    | UnsupportedType(fieldType: FieldType, key: string)

  /** The conditions one or more value-map entries add to each bucket. */
  datatype Emission = Emission(must: seq<Condition>, mustNot: seq<Condition>, should: seq<Condition>)

  const Nothing: Emission := Emission([], [], [])

  function MustOnly(c: Condition): Emission {
    Emission([c], [], [])
  }

  function OneSided(key: string, c: Cond, v: Value): Condition {
    FieldCondition(key, ByRange(
      match c
      case Gt => Range(gt := Some(v))
      case Ge => Range(gte := Some(v))
      case Lt => Range(lt := Some(v))
      case _ => Range(lte := Some(v))))
  }

  /** `_to_match_text_conditions`: one full-text condition per list element, or one for a scalar. */
  function MatchTextConditions(key: string, v: Value): (cs: seq<Condition>)
    ensures |cs| == if v.VList? then |v.items| else 1
    ensures forall c :: c in cs ==> c.FieldCondition? && c.key == key && c.test.ByMatch? && c.test.m.MatchText?
  {
    match v
    case VList(xs) => seq(|xs|, i requires 0 <= i < |xs| => FieldCondition(key, ByMatch(MatchText(Str(xs[i])))))
    case _ => [FieldCondition(key, ByMatch(MatchText(Str(v))))]
  }

  /**
   * The compiler's table: what a non-null value for a field of type `t` with
   * condition `c` contributes, keyed by its metadata key.
   */
  function Dispatch(t: FieldType, c: Option<Cond>, key: string, v: Value): Result<Emission, FilterError> {
    match (t, c)
    case (Unsupported(_), _) => Failure(UnsupportedType(t, key))
    case (Text, None) | (Text, Some(Any)) | (Text, Some(Eq)) =>
      Success(Emission([], [], MatchTextConditions(key, v)))
    case (_, None) => Success(Nothing)
    case (Keyword, Some(Eq)) | (Integer, Some(Eq)) | (Boolean, Some(Eq)) =>
      Success(MustOnly(FieldCondition(key, ByMatch(MatchValue(v)))))
    case (Keyword, Some(Ne)) | (Integer, Some(Ne)) | (Boolean, Some(Ne)) =>
      Success(Emission([], [FieldCondition(key, ByMatch(MatchValue(v)))], []))
    case (Keyword, Some(Any)) | (Integer, Some(Any)) =>
      Success(MustOnly(FieldCondition(key, ByMatch(MatchAny(v)))))
    case (Keyword, Some(Except)) | (Integer, Some(Except)) =>
      Success(MustOnly(FieldCondition(key, ByMatch(MatchExcept(v)))))
    case (Integer, Some(Gt)) | (Integer, Some(Ge)) | (Integer, Some(Lt)) | (Integer, Some(Le))
       | (Float, Some(Gt)) | (Float, Some(Ge)) | (Float, Some(Lt)) | (Float, Some(Le)) =>
      Success(MustOnly(OneSided(key, c.value, v)))
    case (_, Some(bad)) => Failure(InvalidCondition(bad, t, key))
  }

  /** One iteration of the compiler's loop over the value map. */
  function Step(reg: Registry, name: string, v: Value): Result<Emission, FilterError> {
    match Get(reg, name)
    case None => Failure(NotFilterable(name))
    case Some(f) =>
      if v.VNone? then (if f.required then Failure(RequiredMissing(name)) else Success(Nothing))
      else Dispatch(f.fieldType, f.condition, MetadataKey(name), v)
  }

  function Combine(a: Emission, b: Emission): Emission {
    Emission(a.must + b.must, a.mustNot + b.mustNot, a.should + b.should)
  }

  /** The compiler's loop: entries in iteration order; the first failing entry's error wins. */
  function Emissions(reg: Registry, values: Dict<string, Value>): Result<Emission, FilterError>
    decreases |values|
  {
    if |values| == 0 then Success(Nothing)
    else
      match Emissions(reg, values[..|values| - 1])
      case Failure(e) => Failure(e)
      case Success(acc) =>
        match Step(reg, values[|values| - 1].0, values[|values| - 1].1)
        case Failure(e) => Failure(e)
        case Success(em) => Success(Combine(acc, em))
  }

  /** `x if x else None` for a bucket's list. */
  function BucketOf(cs: seq<Condition>): Bucket {
    if cs == [] then Absent else Several(cs)
  }

  predicate NoEmptyBucket(f: Filter) {
    f.must != Several([]) && f.should != Several([]) && f.mustNot != Several([])
  }

  /** `make_filter`, as a function of the registry and the value map. */
  function Compile(reg: Registry, values: Dict<string, Value>): (r: Result<Filter, FilterError>)
    ensures r.Success? ==> NoEmptyBucket(r.value)
    ensures r.Success? ==> !r.value.must.Single? && !r.value.should.Single? && !r.value.mustNot.Single?
  {
    match Emissions(reg, values)
    case Failure(e) => Failure(e)
    case Success(em) => Success(Filter(must := BucketOf(em.must), should := BucketOf(em.should), mustNot := BucketOf(em.mustNot)))
  }

  lemma {:induction false} EmissionsFailurePropagates(reg: Registry, values: Dict<string, Value>, n: nat, e: FilterError)
    requires n <= |values| && Emissions(reg, values[..n]) == Failure(e)
    ensures Emissions(reg, values) == Failure(e)
    decreases |values| - n
  {
    if n < |values| {
      assert values[..n + 1][..n] == values[..n];
      EmissionsFailurePropagates(reg, values, n + 1, e);
    } else {
      assert values[..n] == values;
    }
  }

  /**
   * The body of `make_filter`'s loop for a non-null value: the `if`/`elif`
   * chain over the field type and its condition, appending to the lists.
   */
  method AppendConditions(field: FilterableField, key: string, value: Value,
                          must0: seq<Condition>, mustNot0: seq<Condition>, should0: seq<Condition>)
    returns (must: seq<Condition>, mustNot: seq<Condition>, should: seq<Condition>, failed: Option<FilterError>)
    ensures var step := Dispatch(field.fieldType, field.condition, key, value);
      && (failed.Some? <==> step.Failure?)
      && (failed.Some? ==> step == Failure(failed.value))
      && (failed.None? ==> Emission(must, mustNot, should) == Combine(Emission(must0, mustNot0, should0), step.value))
  {
    must, mustNot, should, failed := must0, mustNot0, should0, None;
    if field.fieldType == Keyword {
      if field.condition == Some(Eq) {
        must := must + [FieldCondition(key, ByMatch(MatchValue(value)))];
      } else if field.condition == Some(Ne) {
        mustNot := mustNot + [FieldCondition(key, ByMatch(MatchValue(value)))];
      } else if field.condition == Some(Any) {
        must := must + [FieldCondition(key, ByMatch(MatchAny(value)))];
      } else if field.condition == Some(Except) {
        must := must + [FieldCondition(key, ByMatch(MatchExcept(value)))];
      } else if field.condition.Some? {
        failed := Some(InvalidCondition(field.condition.value, Keyword, key));
      }
    } else if field.fieldType == Integer {
      if field.condition == Some(Eq) {
        must := must + [FieldCondition(key, ByMatch(MatchValue(value)))];
      } else if field.condition == Some(Ne) {
        mustNot := mustNot + [FieldCondition(key, ByMatch(MatchValue(value)))];
      } else if field.condition == Some(Gt) {
        must := must + [FieldCondition(key, ByRange(Range(gt := Some(value))))];
      } else if field.condition == Some(Ge) {
        must := must + [FieldCondition(key, ByRange(Range(gte := Some(value))))];
      } else if field.condition == Some(Lt) {
        must := must + [FieldCondition(key, ByRange(Range(lt := Some(value))))];
      } else if field.condition == Some(Le) {
        must := must + [FieldCondition(key, ByRange(Range(lte := Some(value))))];
      } else if field.condition == Some(Any) {
        must := must + [FieldCondition(key, ByMatch(MatchAny(value)))];
      } else if field.condition == Some(Except) {
        must := must + [FieldCondition(key, ByMatch(MatchExcept(value)))];
      }
    } else if field.fieldType == Float {
      if field.condition == Some(Gt) {
        must := must + [FieldCondition(key, ByRange(Range(gt := Some(value))))];
      } else if field.condition == Some(Ge) {
        must := must + [FieldCondition(key, ByRange(Range(gte := Some(value))))];
      } else if field.condition == Some(Lt) {
        must := must + [FieldCondition(key, ByRange(Range(lt := Some(value))))];
      } else if field.condition == Some(Le) {
        must := must + [FieldCondition(key, ByRange(Range(lte := Some(value))))];
      } else if field.condition.Some? {
        failed := Some(InvalidCondition(field.condition.value, Float, key));
      }
    } else if field.fieldType == Boolean {
      if field.condition == Some(Eq) {
        must := must + [FieldCondition(key, ByMatch(MatchValue(value)))];
      } else if field.condition == Some(Ne) {
        mustNot := mustNot + [FieldCondition(key, ByMatch(MatchValue(value)))];
      } else if field.condition.Some? {
        failed := Some(InvalidCondition(field.condition.value, Boolean, key));
      }
    } else if field.fieldType == Text {
      if field.condition == Some(Any) || field.condition == Some(Eq) || field.condition == None {
        should := should + MatchTextConditions(key, value);
      } else {
        failed := Some(InvalidCondition(field.condition.value, Text, key));
      }
    } else {
      failed := Some(UnsupportedType(field.fieldType, key));
    }
  }

  /** `make_filter`: the loop over the value map appends to three condition lists. */
  method MakeFilter(reg: Registry, values: Dict<string, Value>) returns (r: Result<Filter, FilterError>)
    ensures r == Compile(reg, values)
  {
    var must: seq<Condition> := [];
    var mustNot: seq<Condition> := [];
    var should: seq<Condition> := [];
    var i := 0;
    while i < |values|
      invariant 0 <= i <= |values|
      invariant Emissions(reg, values[..i]) == Success(Emission(must, mustNot, should))
    {
      var rawName := values[i].0;
      var value := values[i].1;
      assert values[..i + 1][..i] == values[..i];
      var found := Get(reg, rawName);
      if found.None? {
        r := Failure(NotFilterable(rawName));
        EmissionsFailurePropagates(reg, values, i + 1, r.error);
        return;
      }
      var field := found.value;
      if value.VNone? {
        if field.required {
          r := Failure(RequiredMissing(rawName));
          EmissionsFailurePropagates(reg, values, i + 1, r.error);
          return;
        }
        assert Step(reg, rawName, value) == Success(Nothing);
        assert Combine(Emission(must, mustNot, should), Nothing) == Emission(must, mustNot, should);
        i := i + 1;
        continue;
      }
      var key := MetadataKey(rawName);
      ghost var before := Emission(must, mustNot, should);
      ghost var step := Dispatch(field.fieldType, field.condition, key, value);
      assert Step(reg, rawName, value) == step;
      var failed;
      must, mustNot, should, failed := AppendConditions(field, key, value, must, mustNot, should);
      if failed.Some? {
        r := Failure(failed.value);
        EmissionsFailurePropagates(reg, values, i + 1, r.error);
        return;
      }
      assert Emissions(reg, values[..i + 1]) == Success(Combine(before, step.value));
      i := i + 1;
    }
    assert values[..|values|] == values;
    r := Success(Filter(must := BucketOf(must), should := BucketOf(should), mustNot := BucketOf(mustNot)));
  }

  /** `models.PayloadSchemaType`: the index kinds the planner asks for. */
  datatype IndexKind = KeywordIndex | IntegerIndex | FloatIndex | BoolIndex | TextIndex

  function IndexKindOf(t: FieldType): IndexKind
    requires CompilableFieldType(t)
  {
    match t
    case Keyword => KeywordIndex
    case Integer => IntegerIndex
    case Float => FloatIndex
    case Boolean => BoolIndex
    case Text => TextIndex
  }

  /** The branch of `make_indexes` that picks the payload schema type of one field. */
  method SchemaType(field: FilterableField, name: string) returns (r: Result<IndexKind, FilterError>)
    ensures r.Success? <==> CompilableFieldType(field.fieldType)
    ensures r.Success? ==> r.value == IndexKindOf(field.fieldType)
    ensures r.Failure? ==> r.error == UnsupportedType(field.fieldType, name)
  {
    if field.fieldType == Keyword {
      r := Success(KeywordIndex);
    } else if field.fieldType == Integer {
      r := Success(IntegerIndex);
    } else if field.fieldType == Float {
      r := Success(FloatIndex);
    } else if field.fieldType == Boolean {
      r := Success(BoolIndex);
    } else if field.fieldType == Text {
      r := Success(TextIndex);
    } else {
      r := Failure(UnsupportedType(field.fieldType, name));
    }
  }

  /**
   * `make_indexes`: one payload index per registered field, under its
   * metadata key, in registry order; the first field of a type outside the
   * five supported ones aborts the plan.
   */
  method MakeIndexes(reg: Registry) returns (r: Result<Dict<string, IndexKind>, FilterError>)
    requires UniqueKeys(reg)
    ensures r.Success? <==> forall i :: 0 <= i < |reg| ==> CompilableFieldType(reg[i].1.fieldType)
    ensures r.Success? ==> |r.value| == |reg| && UniqueKeys(r.value)
    ensures r.Success? ==> forall i :: 0 <= i < |reg| ==>
      r.value[i] == (MetadataKey(reg[i].0), IndexKindOf(reg[i].1.fieldType))
    ensures r.Failure? ==> exists i :: (0 <= i < |reg| && !CompilableFieldType(reg[i].1.fieldType)
      && r.error == UnsupportedType(reg[i].1.fieldType, reg[i].0)
      && forall j :: 0 <= j < i ==> CompilableFieldType(reg[j].1.fieldType))
  {
    var indexes: Dict<string, IndexKind> := [];
    var i := 0;
    while i < |reg|
      invariant 0 <= i <= |reg|
      invariant |indexes| == i && UniqueKeys(indexes)
      invariant forall j :: 0 <= j < i ==> CompilableFieldType(reg[j].1.fieldType)
      invariant forall j :: 0 <= j < i ==> indexes[j] == (MetadataKey(reg[j].0), IndexKindOf(reg[j].1.fieldType))
    {
      var name := reg[i].0;
      var kind := SchemaType(reg[i].1, name);
      if kind.Failure? {
        r := Failure(kind.error);
        return;
      }
      var key := MetadataKey(name);
      assert !HasKey(indexes, key) by {
        forall j | 0 <= j < i ensures indexes[j].0 != key {
          MetadataKeyInjective(reg[j].0, name);
        }
      }
      indexes := Put(indexes, key, kind.value);
      i := i + 1;
    }
    r := Success(indexes);
  }

  /** Which conditions each field type accepts, as a table. */
  predicate Allowed(t: FieldType, c: Cond) {
    match t
    case Keyword => c == Eq || c == Ne || c == Any || c == Except
    case Integer => true
    case Float => c == Gt || c == Ge || c == Lt || c == Le
    case Boolean => c == Eq || c == Ne
    case Text => c == Eq || c == Any
    case Unsupported(_) => false
  }

  /** A field the compiler can always handle: a known type and a condition that type accepts. */
  predicate Compatible(f: FilterableField) {
    CompilableFieldType(f.fieldType) && (f.condition.Some? ==> Allowed(f.fieldType, f.condition.value))
  }

  /**
   * The compiler's branches agree with the table: a known type with no
   * condition or an accepted one never fails; range and exact-match types
   * add exactly one condition, which goes to must_not only for `!=`; text
   * fields add only to should.
   */
  lemma DispatchFollowsTable(t: FieldType, c: Option<Cond>, key: string, v: Value)
    ensures var d := Dispatch(t, c, key, v);
      d.Failure? <==> !CompilableFieldType(t) || (c.Some? && !Allowed(t, c.value))
    ensures var d := Dispatch(t, c, key, v);
      d.Failure? ==> d.error == if t.Unsupported? then UnsupportedType(t, key) else InvalidCondition(c.value, t, key)
    ensures var d := Dispatch(t, c, key, v);
      d.Success? && t != Text ==> (d.value.should == []
        && (c.None? <==> d.value == Nothing)
        && (c.Some? ==> |d.value.must| + |d.value.mustNot| == 1 && (|d.value.mustNot| == 1 <==> c.value == Ne)))
    ensures var d := Dispatch(t, c, key, v);
      d.Success? && t == Text ==> d.value == Emission([], [], MatchTextConditions(key, v))
  {
  }

  /** What each error of one iteration says about the entry and its field. */
  lemma StepErrorCauses(reg: Registry, name: string, v: Value)
    ensures Step(reg, name, v) == Failure(NotFilterable(name)) <==> !HasKey(reg, name)
    ensures Step(reg, name, v) == Failure(RequiredMissing(name)) <==>
      HasKey(reg, name) && v.VNone? && Get(reg, name).value.required
    ensures Step(reg, name, v).Failure? ==>
      Step(reg, name, v).error.NotFilterable? || Step(reg, name, v).error.RequiredMissing?
      || (HasKey(reg, name) && !v.VNone? && !Compatible(Get(reg, name).value))
    ensures Step(reg, name, v).Failure? && Step(reg, name, v).error.RequiredMissing? ==>
      Step(reg, name, v).error == RequiredMissing(name)
  {
    if HasKey(reg, name) && !v.VNone? {
      var f := Get(reg, name).value;
      DispatchFollowsTable(f.fieldType, f.condition, MetadataKey(name), v);
    }
  }

  predicate StepFails(reg: Registry, entry: (string, Value)) {
    Step(reg, entry.0, entry.1).Failure?
  }

  /**
   * The compiler fails exactly when some entry of the value map fails on its
   * own, and then with the error of the first such entry.
   */
  lemma {:induction false} CompileFailsAtFirstBadEntry(reg: Registry, values: Dict<string, Value>)
    ensures Emissions(reg, values).Failure? <==> exists i :: 0 <= i < |values| && StepFails(reg, values[i])
    ensures Emissions(reg, values).Failure? ==> exists i :: (0 <= i < |values|
      && Step(reg, values[i].0, values[i].1) == Failure(Emissions(reg, values).error)
      && forall j :: 0 <= j < i ==> !StepFails(reg, values[j]))
    decreases |values|
  {
    if |values| > 0 {
      var init := values[..|values| - 1];
      CompileFailsAtFirstBadEntry(reg, init);
      assert forall j :: 0 <= j < |init| ==> init[j] == values[j];
      if Emissions(reg, init).Failure? {
        var i :| 0 <= i < |init| && Step(reg, init[i].0, init[i].1) == Failure(Emissions(reg, init).error)
          && forall j :: 0 <= j < i ==> !StepFails(reg, init[j]);
        assert Step(reg, values[i].0, values[i].1) == Failure(Emissions(reg, values).error);
      } else if StepFails(reg, values[|values| - 1]) {
        assert forall j :: 0 <= j < |values| - 1 ==> !StepFails(reg, values[j]);
      } else {
        forall i | 0 <= i < |values| ensures !StepFails(reg, values[i]) {
          if i < |init| {
            assert values[i] == init[i];
          }
        }
      }
    }
  }

  /** A name that is not in the registry makes the whole call fail. */
  lemma UnknownNameRejected(reg: Registry, values: Dict<string, Value>, i: nat)
    requires i < |values| && !HasKey(reg, values[i].0)
    ensures Compile(reg, values).Failure?
  {
    assert StepFails(reg, values[i]);
    CompileFailsAtFirstBadEntry(reg, values);
  }

  /** A null value for a required field makes the whole call fail. */
  lemma RequiredNullRejected(reg: Registry, values: Dict<string, Value>, i: nat)
    requires i < |values| && values[i].1.VNone?
    requires HasKey(reg, values[i].0) && Get(reg, values[i].0).value.required
    ensures Compile(reg, values).Failure?
  {
    assert StepFails(reg, values[i]);
    CompileFailsAtFirstBadEntry(reg, values);
  }

  /**
   * Over a registry whose fields are all compatible, the only errors left
   * are an unknown name and a null for a required field.
   */
  lemma CompatibleRegistryFailsOnlyOnLookup(reg: Registry, values: Dict<string, Value>)
    requires forall i :: 0 <= i < |reg| ==> Compatible(reg[i].1)
    ensures Compile(reg, values).Failure? ==>
      Compile(reg, values).error.NotFilterable? || Compile(reg, values).error.RequiredMissing?
  {
    CompileFailsAtFirstBadEntry(reg, values);
    if Emissions(reg, values).Failure? {
      var e := Emissions(reg, values).error;
      var i :| 0 <= i < |values| && Step(reg, values[i].0, values[i].1) == Failure(e);
      if HasKey(reg, values[i].0) && !values[i].1.VNone? {
        var k := GetWitness(reg, values[i].0);
        var f := reg[k].1;
        DispatchFollowsTable(f.fieldType, f.condition, MetadataKey(values[i].0), values[i].1);
      }
    }
  }

  /** Over compatible fields none of which is required, only an unknown name can fail. */
  lemma OptionalRegistryFailsOnlyOnUnknownName(reg: Registry, values: Dict<string, Value>)
    requires forall i :: 0 <= i < |reg| ==> Compatible(reg[i].1) && !reg[i].1.required
    ensures Compile(reg, values).Failure? ==> Compile(reg, values).error.NotFilterable?
  {
    CompatibleRegistryFailsOnlyOnLookup(reg, values);
    CompileFailsAtFirstBadEntry(reg, values);
    if Compile(reg, values).Failure? {
      var e := Compile(reg, values).error;
      var i :| 0 <= i < |values| && Step(reg, values[i].0, values[i].1) == Failure(e);
      StepErrorCauses(reg, values[i].0, values[i].1);
      if HasKey(reg, values[i].0) {
        var j := GetWitness(reg, values[i].0);
      }
    }
  }

  /** A value map with only nulls for optional known fields compiles to the empty filter. */
  lemma {:induction false} OptionalNullsCompileToEmptyFilter(reg: Registry, values: Dict<string, Value>)
    requires forall i :: 0 <= i < |values| ==> (values[i].1.VNone? && HasKey(reg, values[i].0)
      && !Get(reg, values[i].0).value.required)
    ensures Emissions(reg, values) == Success(Nothing)
    ensures Compile(reg, values) == Success(Filter())
    decreases |values|
  {
    if |values| > 0 {
      var init := values[..|values| - 1];
      assert forall j :: 0 <= j < |init| ==> init[j] == values[j];
      OptionalNullsCompileToEmptyFilter(reg, init);
      assert Step(reg, values[|values| - 1].0, values[|values| - 1].1) == Success(Nothing);
      assert Combine(Nothing, Nothing) == Nothing;
    }
  }

  /** Compiling a concatenation of value maps concatenates each bucket, in order. */
  lemma {:induction false} EmissionsAppend(reg: Registry, a: Dict<string, Value>, b: Dict<string, Value>)
    requires Emissions(reg, a).Success? && Emissions(reg, b).Success?
    ensures Emissions(reg, a + b) == Success(Combine(Emissions(reg, a).value, Emissions(reg, b).value))
    decreases |b|
  {
    var ea := Emissions(reg, a).value;
    if |b| == 0 {
      assert a + b == a;
      assert Combine(ea, Nothing) == ea;
    } else {
      var init, x := b[..|b| - 1], b[|b| - 1];
      assert b == init + [x];
      assert a + b == (a + init) + [x];
      EmissionsSnoc(reg, init, x);
      EmissionsAppend(reg, a, init);
      EmissionsSnoc(reg, a + init, x);
      CombineAssociative(ea, Emissions(reg, init).value, Step(reg, x.0, x.1).value);
    }
  }

  /** Compiling one more entry after a prefix that compiles: that entry's branch, appended. */
  lemma EmissionsSnoc(reg: Registry, d: Dict<string, Value>, x: (string, Value))
    requires Emissions(reg, d).Success?
    ensures Emissions(reg, d + [x]) ==
      match Step(reg, x.0, x.1)
      case Failure(e) => Failure(e)
      case Success(em) => Success(Combine(Emissions(reg, d).value, em))
  {
    assert (d + [x])[..|d|] == d;
  }

  lemma CombineAssociative(x: Emission, y: Emission, z: Emission)
    ensures Combine(Combine(x, y), z) == Combine(x, Combine(y, z))
  {
    assert (x.must + y.must) + z.must == x.must + (y.must + z.must);
    assert (x.mustNot + y.mustNot) + z.mustNot == x.mustNot + (y.mustNot + z.mustNot);
    assert (x.should + y.should) + z.should == x.should + (y.should + z.should);
  }

  /** A single entry compiles exactly as the compiler's branch for it. */
  lemma SingleEntry(reg: Registry, name: string, v: Value)
    ensures Emissions(reg, [(name, v)]) == Step(reg, name, v)
  {
    assert [(name, v)][..0] == [];
    if Step(reg, name, v).Success? {
      assert Combine(Nothing, Step(reg, name, v).value) == Step(reg, name, v).value;
    }
  }

  /**
   * Every condition the compiler emits is a field condition on the metadata
   * key of a non-null entry of the value map; full-text matches go to should
   * and only there, and come from text fields.
   */
  predicate EmittedFor(reg: Registry, values: Dict<string, Value>, c: Condition, text: bool) {
    && c.FieldCondition?
    && (c.test.ByMatch? && c.test.m.MatchText?) == text
    && exists j :: (0 <= j < |values| && c.key == MetadataKey(values[j].0) && !values[j].1.VNone?
      && HasKey(reg, values[j].0) && (Get(reg, values[j].0).value.fieldType == Text) == text)
  }

  lemma {:induction false} CompiledConditionsPlacement(reg: Registry, values: Dict<string, Value>)
    requires Emissions(reg, values).Success?
    ensures forall c :: c in Emissions(reg, values).value.must ==> EmittedFor(reg, values, c, false)
    ensures forall c :: c in Emissions(reg, values).value.mustNot ==> EmittedFor(reg, values, c, false)
    ensures forall c :: c in Emissions(reg, values).value.should ==> EmittedFor(reg, values, c, true)
    decreases |values|
  {
    if |values| > 0 {
      var n := |values| - 1;
      var init := values[..n];
      CompiledConditionsPlacement(reg, init);
      EmittedForPrefix(reg, values, n);
      StepPlacement(reg, values, n);
    }
  }

  /** A condition placed for a prefix of the value map is placed for the whole map. */
  lemma EmittedForPrefix(reg: Registry, values: Dict<string, Value>, n: nat)
    requires n <= |values|
    ensures forall c, text: bool :: EmittedFor(reg, values[..n], c, text) ==> EmittedFor(reg, values, c, text)
  {
    forall c, text: bool | EmittedFor(reg, values[..n], c, text) ensures EmittedFor(reg, values, c, text) {
      var j :| 0 <= j < n && c.key == MetadataKey(values[..n][j].0) && !values[..n][j].1.VNone?
        && HasKey(reg, values[..n][j].0) && (Get(reg, values[..n][j].0).value.fieldType == Text) == text;
      assert values[..n][j] == values[j];
    }
  }

  /** The conditions one entry's branch emits are placed for that entry. */
  lemma StepPlacement(reg: Registry, values: Dict<string, Value>, n: nat)
    requires n < |values| && Step(reg, values[n].0, values[n].1).Success?
    ensures var em := Step(reg, values[n].0, values[n].1).value;
      && (forall c :: c in em.must ==> EmittedFor(reg, values, c, false))
      && (forall c :: c in em.mustNot ==> EmittedFor(reg, values, c, false))
      && (forall c :: c in em.should ==> EmittedFor(reg, values, c, true))
  {
    var em := Step(reg, values[n].0, values[n].1).value;
    if !values[n].1.VNone? {
      var f := Get(reg, values[n].0).value;
      DispatchFollowsTable(f.fieldType, f.condition, MetadataKey(values[n].0), values[n].1);
      forall c | c in em.must + em.mustNot + em.should
        ensures EmittedFor(reg, values, c, c in em.should)
      {
        if f.fieldType == Text {
          assert c in MatchTextConditions(MetadataKey(values[n].0), values[n].1);
        } else if f.condition == Some(Ne) {
          assert Dispatch(f.fieldType, f.condition, MetadataKey(values[n].0), values[n].1).value.mustNot
            == [FieldCondition(MetadataKey(values[n].0), ByMatch(MatchValue(values[n].1)))];
        }
      }
    }
  }
}
