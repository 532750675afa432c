/**
 * The field catalog for mailbox search over ingested Outlook messages: two
 * full-text fields, keyword, boolean and numeric fields, all under `email.`
 * and none required (the collection scopes the mailbox).
 */
module OutlookConfig {
  import opened Wrappers
  import opened PyDict
  import opened Values
  import opened Settings
  import opened Filters

  // Field descriptions, shown to clients in the tool parameter documentation.
  const SUBJECT_DESCRIPTION: string := "Email subject text (full-text, partial matches allowed)"
  const TO_DESCRIPTION: string := "Email recipients (string, full-text match across addresses)"
  const FROM_DESCRIPTION: string := "Email sender (exact match)"
  const THREAD_ID_DESCRIPTION: string := "Thread/conversation identifier"
  const MESSAGE_ID_DESCRIPTION: string := "Unique message-id header"
  const LABELS_DESCRIPTION: string := "Email labels/tags (array); matches if any provided label is present"
  const SENTIMENT_DESCRIPTION: string := "Detected sentiment (e.g., 'positive', 'neutral', 'negative')"
  const PRIORITY_DESCRIPTION: string := "Email priority (e.g., 'high', 'normal', 'low')"
  const LANGUAGE_DESCRIPTION: string := "Detected content language"
  const DATE_DESCRIPTION: string := "Message date/time (ISO 8601 as keyword equality)"
  const HAS_ATTACHMENTS_DESCRIPTION: string := "Whether the email has attachments (true/false)"
  const IS_HTML_DESCRIPTION: string := "Whether the email body is HTML (true/false)"
  const CONTENT_LENGTH_DESCRIPTION: string := "Minimum content length"

  const ENTERPRISE_EMAIL_FILTERABLE_FIELDS: seq<FilterableField> := [
    FilterableField("email.subject", SUBJECT_DESCRIPTION, Text, condition := Some(Any)),
    FilterableField("email.to", TO_DESCRIPTION, Text, condition := Some(Any)),
    FilterableField("email.from", FROM_DESCRIPTION, Keyword, condition := Some(Eq)),
    FilterableField("email.thread_id", THREAD_ID_DESCRIPTION, Keyword, condition := Some(Eq)),
    FilterableField("email.message_id", MESSAGE_ID_DESCRIPTION, Keyword, condition := Some(Eq)),
    FilterableField("email.labels", LABELS_DESCRIPTION, Keyword, condition := Some(Any)),
    FilterableField("email.sentiment", SENTIMENT_DESCRIPTION, Keyword, condition := Some(Eq)),
    FilterableField("email.priority", PRIORITY_DESCRIPTION, Keyword, condition := Some(Eq)),
    FilterableField("email.language", LANGUAGE_DESCRIPTION, Keyword, condition := Some(Eq)),
    FilterableField("email.date", DATE_DESCRIPTION, Keyword, condition := Some(Eq)),
    FilterableField("email.has_attachments", HAS_ATTACHMENTS_DESCRIPTION, Boolean, condition := Some(Eq)),
    FilterableField("email.is_html", IS_HTML_DESCRIPTION, Boolean, condition := Some(Eq)),
    FilterableField("email.content_length", CONTENT_LENGTH_DESCRIPTION, Integer, condition := Some(Ge))
  ]

  /** `get_outlook_filterable_fields_dict`. */
  function OutlookFieldsDict(): Registry {
    FieldsByName(ENTERPRISE_EMAIL_FILTERABLE_FIELDS)
  }

  /** `get_outlook_filterable_fields_with_conditions`. */
  function OutlookFieldsWithConditions(): Registry {
    FieldsWithConditions(ENTERPRISE_EMAIL_FILTERABLE_FIELDS)
  }

  lemma CatalogFieldsDistinct()
    ensures |ENTERPRISE_EMAIL_FILTERABLE_FIELDS| == 13
    ensures DistinctNames(ENTERPRISE_EMAIL_FILTERABLE_FIELDS)
  {
  }

  /** Every field has a condition its type accepts, and none is required. */
  lemma CatalogFieldsCompatible()
    ensures forall i :: 0 <= i < |ENTERPRISE_EMAIL_FILTERABLE_FIELDS| ==>
      Compatible(ENTERPRISE_EMAIL_FILTERABLE_FIELDS[i]) && ENTERPRISE_EMAIL_FILTERABLE_FIELDS[i].condition.Some?
      && !ENTERPRISE_EMAIL_FILTERABLE_FIELDS[i].required
  {
  }

  /** The two full-text fields come first; every other field has a type the declaration admits. */
  lemma CatalogTextFields()
    ensures forall i :: 0 <= i < |ENTERPRISE_EMAIL_FILTERABLE_FIELDS| ==>
      (ENTERPRISE_EMAIL_FILTERABLE_FIELDS[i].fieldType == Text <==> i < 2)
    ensures ENTERPRISE_EMAIL_FILTERABLE_FIELDS[0].name == "email.subject"
    ensures ENTERPRISE_EMAIL_FILTERABLE_FIELDS[1].name == "email.to"
  {
  }

  /** Every field is registered under `email.`, so it is filtered and indexed under `metadata.email.`. */
  lemma NamesUnderEmail(i: nat)
    requires i < |ENTERPRISE_EMAIL_FILTERABLE_FIELDS|
    ensures ENTERPRISE_EMAIL_FILTERABLE_FIELDS[i].name[..6] == "email."
    ensures MetadataKey(ENTERPRISE_EMAIL_FILTERABLE_FIELDS[i].name)[..15] == "metadata.email."
  {
    var name := ENTERPRISE_EMAIL_FILTERABLE_FIELDS[i].name;
    assert name[..6] == "email.";
    var key := MetadataKey(name);
    assert key[..9] == "metadata." && key[9..] == name;
    assert key[..15] == key[..9] + name[..6];
  }

  /** Every field carries a condition, so the exposed registry is the full one. */
  lemma ExposedDictIsFullDict()
    ensures OutlookFieldsWithConditions() == OutlookFieldsDict()
    ensures |OutlookFieldsDict()| == 13
    ensures forall i :: 0 <= i < 13 ==>
      OutlookFieldsDict()[i] == (ENTERPRISE_EMAIL_FILTERABLE_FIELDS[i].name, ENTERPRISE_EMAIL_FILTERABLE_FIELDS[i])
  {
    CatalogFieldsDistinct();
    CatalogFieldsCompatible();
    ConditionedPrefix(ENTERPRISE_EMAIL_FILTERABLE_FIELDS, 13);
    assert ENTERPRISE_EMAIL_FILTERABLE_FIELDS[..13] == ENTERPRISE_EMAIL_FILTERABLE_FIELDS;
    FieldsByNameDistinct(ENTERPRISE_EMAIL_FILTERABLE_FIELDS);
  }

  /**
   * Tool arguments checked against the Outlook registry fail only on an
   * unknown name: nothing is required and every condition fits its type.
   */
  lemma OutlookFieldsFailOnlyOnUnknownName(values: Dict<string, Value>)
    ensures Compile(OutlookFieldsDict(), values).Failure? ==> Compile(OutlookFieldsDict(), values).error.NotFilterable?
  {
    var reg := OutlookFieldsDict();
    CatalogFieldsCompatible();
    forall i | 0 <= i < |reg| ensures Compatible(reg[i].1) && !reg[i].1.required {
      RegistryEntryFromList(ENTERPRISE_EMAIL_FILTERABLE_FIELDS, i);
      var j :| 0 <= j < |ENTERPRISE_EMAIL_FILTERABLE_FIELDS| && ENTERPRISE_EMAIL_FILTERABLE_FIELDS[j] == reg[i].1;
    }
    OptionalRegistryFailsOnlyOnUnknownName(reg, values);
  }

  /**
   * As written, the catalog cannot be built: its two text fields have a type
   * the `Literal` annotation of the field declaration does not admit, so
   * validation rejects them.
   */
  lemma CatalogRejectedByDeclaredTypes()
    ensures !DeclaredFieldType(ENTERPRISE_EMAIL_FILTERABLE_FIELDS[0].fieldType)
    ensures !DeclaredFieldType(ENTERPRISE_EMAIL_FILTERABLE_FIELDS[1].fieldType)
  {
  }

  /** With "text" admitted, every field of the catalog validates. */
  lemma CatalogAcceptedByCorrectedTypes()
    ensures forall i :: 0 <= i < |ENTERPRISE_EMAIL_FILTERABLE_FIELDS| ==>
      DeclaredFieldTypeCorrected(ENTERPRISE_EMAIL_FILTERABLE_FIELDS[i].fieldType)
  {
    CatalogFieldsCompatible();
    forall i | 0 <= i < |ENTERPRISE_EMAIL_FILTERABLE_FIELDS|
      ensures DeclaredFieldTypeCorrected(ENTERPRISE_EMAIL_FILTERABLE_FIELDS[i].fieldType)
    {
      DeclaredTypesAreCompilable(ENTERPRISE_EMAIL_FILTERABLE_FIELDS[i].fieldType);
    }
  }
}
