# mcp-server-qdrant, modelled in Dafny

This project models the core of mcp-server-qdrant, an MCP server that stores and searches text in a Qdrant vector database. The model covers six parts:

- **Filter compilation** (`make_filter`, `make_indexes`). A dictionary of tool arguments is compiled against a registry of `FilterableField`s. The result is a Qdrant filter with `must`, `must_not` and `should` buckets, plus a plan of payload indexes.
- **Field registries.** The `FilterableField` record, the name-keyed registry builders and the "with conditions" subset. It also covers the two concrete catalogs: code search and Outlook mail.
- **Connector.** The Qdrant connector's state machine over an abstract in-memory backend:
  - `_ensure_collection_exists`;
  - `store`;
  - `search`, with its single retry against the unnamed vector.
- **VoyageAI naming.** The vector name and vector size of the VoyageAI embedding provider.
- **Code-search tools.** Filter merging, the value maps and limits the tools build, the rendering of ranked results, and the counting done by `_analyze_code_patterns`.
- **Outlook tools.** The query, limit, counters and day keys of `analyze_mailbox`, and the thread grouping and ranking of `find_threads`.

Modules follow the source files:

| module | file | source |
|---|---|---|
| `Settings` | `settings.dfy` | `settings.py` |
| `Filters` | `filters.dfy` | `common/filters.py` |
| `EnterpriseConfig` | `enterprise_config.dfy` | `enterprise_config.py` |
| `OutlookConfig` | `outlook_config.dfy` | `enterprise_config_outlook.py` |
| `VoyageAI` | `voyageai.dfy` | `embeddings/voyageai.py` |
| `Qdrant` | `qdrant.dfy` | `qdrant.py` |
| `EnterpriseTools` | `enterprise_tools.dfy` | `enterprise_tools.py` |
| `OutlookTools` | `outlook_tools.dfy` | `outlook_tools.py` |

Four shared modules support them:

- `Wrappers` holds `Option` and `Result`.
- `PyDict` models an insertion-ordered Python `dict` as a sequence of pairs. Assigning to an existing key keeps its position.
- `Values` holds JSON-like Python values with truthiness, hashability, `str()`, `lower()`, `in` on strings, `str.replace`, `split` and slicing.
- `Counting` models `collections.Counter` with `most_common` and the stable `sorted(..., reverse=True)`.

Python exceptions become the `Failure` side of a `Result`. A loop that raises part-way is modelled by a specification function that folds over the input from the left, so the first raising item decides the error.

Imperative code is modelled as imperative Dafny. Each such method is proved against the function that specifies it:

- `make_filter`, `make_indexes`, the counting loops and the grouping loop become methods with loops.
- The backend is a class: its collections map, its request log and its count of index requests are fields.
- The connector is a class over that backend.

## Model

| member | source | states |
|---|---|---|
| Settings.MetadataKey | src/mcp_server_qdrant/settings.py:30 | A filter or index key is the field name behind the prefix `metadata.`, and nothing else. |
| Settings.MetadataKeyInjective | src/mcp_server_qdrant/common/filters.py:28 | Distinct field names never share a metadata key. |
| Settings.DeclaredTypesAreCompilable | src/mcp_server_qdrant/settings.py:79 | Every type the declaration admits is one `make_filter` compiles. `text` is the one compilable type the declaration leaves out. The corrected declaration admits exactly the compilable types. |
| Settings.FieldsByName | src/mcp_server_qdrant/settings.py:127 | The `{field.name: field}` registry has no repeated key. |
| Settings.FieldsByNameSound | src/mcp_server_qdrant/settings.py:127 | Whatever the registry holds under a name is a field of the list, and it carries that name. |
| Settings.FieldsByNameComplete | src/mcp_server_qdrant/settings.py:127 | Every field of the list can be found under its name. |
| Settings.FieldsByNameDistinct | src/mcp_server_qdrant/settings.py:127 | With distinct names, the registry lists every field under its own name, in list order. |
| Settings.FieldsByNameLookup | src/mcp_server_qdrant/settings.py:127 | With distinct names, looking up a field's name gives back that field. |
| Settings.OnlyFirstRequired | src/mcp_server_qdrant/settings.py:91-94 | If only the first field is required, a registered field is required exactly when its name is the first field's name. |
| Settings.RegistryEntryFromList | src/mcp_server_qdrant/settings.py:127 | Every registry entry is a field of the list, stored under its own name. |
| Settings.Conditioned | src/mcp_server_qdrant/settings.py:134-138 | The subset keeps exactly the fields of the list whose condition is set. |
| Settings.ConditionedPrefix | src/mcp_server_qdrant/settings.py:134-138 | When the conditioned fields are the first `n`, the subset is exactly that prefix. |
| Settings.ConditionedKeepsDistinctNames | src/mcp_server_qdrant/settings.py:134-138 | Filtering keeps names distinct. |
| Settings.FieldsWithConditions | src/mcp_server_qdrant/settings.py:134-138 | The conditioned registry has no repeated key. |
| Settings.ConditionedPrefixRegistry | src/mcp_server_qdrant/settings.py:134-138 | When the conditioned fields come first, the conditioned registry lists exactly those fields, in order, under their names. |
| Settings.SameNameSameField | src/mcp_server_qdrant/settings.py:127 | In a list with distinct names, two fields with the same name are the same field. |
| Settings.FieldsWithConditionsIsRestriction | src/mcp_server_qdrant/settings.py:129-138 | A name is in the conditioned registry exactly when it is in the full registry with a condition, and then it maps to the same field. |
| Settings.FilterableFieldsDict | src/mcp_server_qdrant/settings.py:122-148 | Enterprise mode gives the enterprise registry, or `{}` when that registry cannot be imported. Otherwise an unset field list gives `{}`, and a set one gives its name-keyed registry. |
| Settings.FilterableFieldsDictWithConditions | src/mcp_server_qdrant/settings.py:129-158 | The same four cases, each giving the conditioned registry. |
| Settings.CheckLocalPathConflict | src/mcp_server_qdrant/settings.py:160-167 | The settings are rejected exactly when `local_path` is non-empty and `location` or `api_key` is set. Otherwise they pass unchanged. |
| Settings.GetEffectiveFindDescription | src/mcp_server_qdrant/settings.py:52-56 | Enterprise mode gives the enterprise description. Otherwise the configured find description is used. |
| Values.ReprOfPlain | src/mcp_server_qdrant/common/filters.py:171-184 | Inside a list or dictionary given to `str`, a string without quotes, backslashes or line breaks appears as itself between single quotes. |
| Filters.MatchTextConditions | src/mcp_server_qdrant/common/filters.py:171-184 | A list gives one full-text condition per element and a scalar gives exactly one. Each is a `MatchText` on the field's key. |
| Filters.Compile | src/mcp_server_qdrant/common/filters.py:198-202 | A compiled filter never holds an empty bucket, and each bucket is either absent or a list. |
| Filters.EmissionsFailurePropagates | src/mcp_server_qdrant/common/filters.py:16-18 | Once a prefix of the value map has raised, the whole map raises the same error. |
| Filters.AppendConditions | src/mcp_server_qdrant/common/filters.py:28-196 | One loop step fails exactly when the dispatch table rejects the field's type or condition, with the table's error. Otherwise the three lists grow by exactly what the table emits. |
| Filters.MakeFilter | src/mcp_server_qdrant/common/filters.py:9-202 | The loop computes exactly the compiled filter or error of the value map. |
| Filters.SchemaType | src/mcp_server_qdrant/common/filters.py:211-224 | A field type gets an index kind exactly when it is compilable, and that kind mirrors the type. Otherwise the error names the type and the field. |
| Filters.MakeIndexes | src/mcp_server_qdrant/common/filters.py:205-226 | Planning succeeds exactly when every field's type is compilable. On success it gives one entry per field, in order, under `metadata.<name>`, with the mirrored kind and no repeated key. On failure the error names the first unsupported field. |
| Filters.DispatchFollowsTable | src/mcp_server_qdrant/common/filters.py:30-196 | The dispatch raises exactly for an unsupported type or a condition the type does not allow, with the matching error. For a non-text type it emits nothing when the condition is unset, and otherwise exactly one condition, in `must_not` exactly for `!=`. A text field puts its `MatchText` conditions in `should` only. |
| Filters.StepErrorCauses | src/mcp_server_qdrant/common/filters.py:16-26 | An entry raises "not filterable" exactly for an unknown name, and "required" exactly for a null on a required field. Any other error comes from a field whose condition does not fit its type. |
| Filters.CompileFailsAtFirstBadEntry | src/mcp_server_qdrant/common/filters.py:16-196 | Compilation fails exactly when some entry raises, and then with the error of the first raising entry. |
| Filters.UnknownNameRejected | src/mcp_server_qdrant/common/filters.py:17-18 | Any unknown name makes the whole call fail. |
| Filters.RequiredNullRejected | src/mcp_server_qdrant/common/filters.py:22-24 | A null value for a required field makes the whole call fail. |
| Filters.CompatibleRegistryFailsOnlyOnLookup | src/mcp_server_qdrant/common/filters.py:16-26 | Against a registry whose conditions all fit their types, the only errors are an unknown name or a missing required value. |
| Filters.OptionalRegistryFailsOnlyOnUnknownName | src/mcp_server_qdrant/common/filters.py:16-26 | If, in addition, no field is required, the only error is an unknown name. |
| Filters.OptionalNullsCompileToEmptyFilter | src/mcp_server_qdrant/common/filters.py:22-26 | Nulls for known optional fields emit nothing, so the filter has all three buckets absent. |
| Filters.EmissionsAppend | src/mcp_server_qdrant/common/filters.py:16 | The conditions of a concatenated value map are those of the first part followed by those of the second, bucket by bucket. |
| Filters.EmissionsSnoc | src/mcp_server_qdrant/common/filters.py:16 | One more entry either raises its own error or appends its own conditions. |
| Filters.CombineAssociative | src/mcp_server_qdrant/common/filters.py:12-14 | Appending to the three lists is associative. |
| Filters.SingleEntry | src/mcp_server_qdrant/common/filters.py:16-196 | A one-entry value map compiles to exactly that entry's step. |
| Filters.CompiledConditionsPlacement | src/mcp_server_qdrant/common/filters.py:30-196 | Every condition in `must` or `must_not` comes from a non-text entry of the map. Every condition in `should` comes from a text entry. |
| Filters.EmittedForPrefix | src/mcp_server_qdrant/common/filters.py:16 | A condition emitted for a prefix of the map is emitted for the whole map. |
| Filters.StepPlacement | src/mcp_server_qdrant/common/filters.py:30-196 | One entry's conditions land in `must`/`must_not` if its field is not text, and in `should` if it is. |
| EnterpriseConfig.CatalogFieldsDistinct | src/mcp_server_qdrant/enterprise_config.py:13-165 | The catalog has eighteen fields with distinct names. |
| EnterpriseConfig.CatalogFieldsCompatible | src/mcp_server_qdrant/enterprise_config.py:13-165 | Every field's condition fits its type, and every type is one the declaration admits. |
| EnterpriseConfig.CatalogConditionsFirst | src/mcp_server_qdrant/enterprise_config.py:132-164 | The first fourteen fields have a condition and the last four do not. |
| EnterpriseConfig.CatalogRequiredFirst | src/mcp_server_qdrant/enterprise_config.py:13-165 | Only the first field is required. |
| EnterpriseConfig.EnterpriseDictListsCatalog | src/mcp_server_qdrant/enterprise_config.py:194-196 | The full registry lists the whole catalog, in order, each field under its own name. |
| EnterpriseConfig.ExposedDictListsFirstFourteen | src/mcp_server_qdrant/enterprise_config.py:199-205 | The conditioned registry is exactly the first fourteen fields, in order, under their names. |
| EnterpriseConfig.ToolFieldAttributes | src/mcp_server_qdrant/enterprise_config.py:15-30 | `repository_id` is keyword/`==`, `themes` is keyword/`any`, and `programming_language` and `directory` are keyword/`==`. `complexity_score` is integer/`>=`. |
| EnterpriseConfig.ExposedLookup | src/mcp_server_qdrant/enterprise_config.py:199-205 | Each of the first fourteen fields is found in the conditioned registry under its name. |
| EnterpriseConfig.OnlyRepositoryIdRequired | src/mcp_server_qdrant/enterprise_config.py:15-21 | `repository_id` is keyword, `==` and required. A registered field is required exactly when it is `repository_id`. |
| EnterpriseConfig.ExposedIsConditionedRestriction | src/mcp_server_qdrant/enterprise_config.py:194-205 | The conditioned registry is the full registry restricted to the fields that have a condition. |
| EnterpriseConfig.IndexOnlyFieldNames | src/mcp_server_qdrant/enterprise_config.py:132-164 | The fields without a condition are `content_type`, `document_id`, `chunk_length` and `start_index`. |
| EnterpriseConfig.IndexOnlyFieldHidden | src/mcp_server_qdrant/enterprise_config.py:194-205 | Each index-only field is in the full registry and absent from the conditioned one. |
| EnterpriseConfig.ExposedFieldsFailOnlyOnLookup | src/mcp_server_qdrant/enterprise_config.py:199-205 | Compiling against the conditioned registry fails only on an unknown name or a null `repository_id`. |
| OutlookConfig.CatalogFieldsDistinct | src/mcp_server_qdrant/enterprise_config_outlook.py:13-112 | The Outlook catalog has thirteen fields with distinct names. |
| OutlookConfig.CatalogFieldsCompatible | src/mcp_server_qdrant/enterprise_config_outlook.py:13-112 | Every field has a condition, that condition fits its type, and no field is required. |
| OutlookConfig.CatalogTextFields | src/mcp_server_qdrant/enterprise_config_outlook.py:15-28 | `email.subject` and `email.to` are the only full-text fields. |
| OutlookConfig.NamesUnderEmail | src/mcp_server_qdrant/enterprise_config_outlook.py:13-112 | Every name starts with `email.`, so every filter and index key starts with `metadata.email.`. |
| OutlookConfig.ExposedDictIsFullDict | src/mcp_server_qdrant/enterprise_config_outlook.py:116-127 | The conditioned registry equals the full one, which lists all thirteen fields in order. |
| OutlookConfig.OutlookFieldsFailOnlyOnUnknownName | src/mcp_server_qdrant/enterprise_config_outlook.py:116-118 | Compiling against the Outlook registry fails only on an unknown name, never on a missing required value. |
| OutlookConfig.CatalogRejectedByDeclaredTypes | src/mcp_server_qdrant/enterprise_config_outlook.py:15-28 | The declared field-type literal admits neither `email.subject` nor `email.to`. |
| OutlookConfig.CatalogAcceptedByCorrectedTypes | src/mcp_server_qdrant/enterprise_config_outlook.py:13-112 | With `text` admitted, every field of the catalog has an admitted type. |
| VoyageAI.VectorSize | src/mcp_server_qdrant/embeddings/voyageai.py:91-94 | A known model gets its table dimension and an unknown one gets 1024. |
| VoyageAI.ReplaceAllRemovesChar | src/mcp_server_qdrant/embeddings/voyageai.py:89 | Replacing a character by text without it removes it everywhere. |
| VoyageAI.VectorNameShape | src/mcp_server_qdrant/embeddings/voyageai.py:82-89 | Every vector name starts with `voyage-` and contains no `.`. |
| VoyageAI.VectorSizePositive | src/mcp_server_qdrant/embeddings/voyageai.py:11-25 | Every size the provider reports is positive. |
| VoyageAI.TableKeysDistinct | src/mcp_server_qdrant/embeddings/voyageai.py:11-25 | The table lists each model once. |
| VoyageAI.KnownVectorSizes | src/mcp_server_qdrant/embeddings/voyageai.py:11-25 | `voyage-3.5`, `voyage-code-3` and `voyage-law-2` have 1024 dimensions. `voyage-code-2` has 1536 and `voyage-3-lite` has 512. |
| VoyageAI.UnknownModelSize | src/mcp_server_qdrant/embeddings/voyageai.py:94 | Every model name that does not start with `voyage-`, such as `unknown-model`, is missing from the table and gets the default size 1024. |
| VoyageAI.VectorNameIgnoresPrefix | src/mcp_server_qdrant/embeddings/voyageai.py:88-89 | A model and its spelling without `voyage-` share one vector name. |
| VoyageAI.DefaultModelVectorName | src/mcp_server_qdrant/embeddings/voyageai.py:88-89 | `voyage-3.5` is named `voyage-3-5`. |
| VoyageAI.CodeModelVectorName | src/mcp_server_qdrant/embeddings/voyageai.py:88-89 | `voyage-code-3` keeps its name. |
| VoyageAI.LawModelVectorName | src/mcp_server_qdrant/embeddings/voyageai.py:88-89 | `voyage-law-2` keeps its name. |
| VoyageAI.LargeModelVectorName | src/mcp_server_qdrant/embeddings/voyageai.py:88-89 | `voyage-3-large` keeps its name. |
| VoyageAI.DistinctVectorNames | src/mcp_server_qdrant/embeddings/voyageai.py:82-89 | The four models above get pairwise distinct vector names. |
| Qdrant.NotConfiguredIsLower | src/mcp_server_qdrant/qdrant.py:138-139 | The fallback's marker text is already lower case, so lower-casing a message keeps it. |
| Qdrant.NotConfiguredIsRetryable | src/mcp_server_qdrant/qdrant.py:137-139 | The store's "vector with name … is not configured" message triggers the fallback. |
| Qdrant.EntryOf | src/mcp_server_qdrant/qdrant.py:149-155 | A payload gives an entry exactly when its document is a string and its metadata is absent, null or a dictionary. The content is the document and the metadata is the payload's. A missing document raises a key error. |
| Qdrant.EntryRoundTrip | src/mcp_server_qdrant/qdrant.py:80-155 | Reading back a stored payload gives the stored entry. |
| Qdrant.EntriesOf | src/mcp_server_qdrant/qdrant.py:149-155 | The results keep the backend's order, one entry per point. Any error is the error of the first point whose payload does not convert. |
| Qdrant.Backend.Answer | src/mcp_server_qdrant/qdrant.py:128-134 | A query fails with the store's fault. Failing that, it fails when the requested vector is not configured. A success returns at most `limit` points. |
| Qdrant.Backend.CollectionExists | src/mcp_server_qdrant/qdrant.py:112 | The answer is whether the named collection exists. The state is unchanged and one request is logged. |
| Qdrant.Backend.CreateCollection | src/mcp_server_qdrant/qdrant.py:169-177 | Adds an empty collection with the given vectors. |
| Qdrant.Backend.CreatePayloadIndex | src/mcp_server_qdrant/qdrant.py:183-187 | Attempts one index and reports the store's fault for this attempt. A failed attempt changes nothing; a successful one sets the field's kind. |
| Qdrant.Backend.WithIndexGet | src/mcp_server_qdrant/qdrant.py:183-187 | An index request leaves every other field's index alone. A successful one sets its field's kind, and a failed one changes nothing. |
| Qdrant.Backend.Upsert | src/mcp_server_qdrant/qdrant.py:82-91 | Puts one point under its id and changes nothing else. |
| Qdrant.Backend.QueryPoints | src/mcp_server_qdrant/qdrant.py:128-134 | Answers from the collection as it was, changes no collection, and logs one request. |
| Qdrant.VoyageProvider | src/mcp_server_qdrant/embeddings/voyageai.py:82-94 | The VoyageAI provider has a positive vector size and a name starting with `voyage-`. |
| Qdrant.QdrantConnector.IndexRequests | src/mcp_server_qdrant/qdrant.py:181-187 | One index request per configured field, in order. |
| Qdrant.QdrantConnector.EnsureCollectionExists | src/mcp_server_qdrant/qdrant.py:157-198 | Asks whether the collection exists and creates it only when absent, with the provider's named vector. It then attempts every configured index, swallowing every index error. No other collection changes. |
| Qdrant.QdrantConnector.RequestIndexes | src/mcp_server_qdrant/qdrant.py:180-198 | One attempt per configured field, in order. A failed attempt changes nothing and does not stop the loop. |
| Qdrant.QdrantConnector.RequestIndex | src/mcp_server_qdrant/qdrant.py:181-187 | One turn of the loop adds the next field's request to the collections, the attempt count and the log. |
| Qdrant.QdrantConnector.IndexedOnlyIndexes | src/mcp_server_qdrant/qdrant.py:180-198 | The index requests change only the indexes of the one collection they name. |
| Qdrant.QdrantConnector.IndexPresentAfter | src/mcp_server_qdrant/qdrant.py:181-187 | A configured index whose request succeeded is present with its kind once the loop has passed it. |
| Qdrant.QdrantConnector.UntouchedIndex | src/mcp_server_qdrant/qdrant.py:180-198 | A field no request names keeps the index it had. |
| Qdrant.QdrantConnector.IndexesOnlyGrow | src/mcp_server_qdrant/qdrant.py:180-198 | The index loop never removes an index, whatever the faults. |
| Qdrant.QdrantConnector.ConfiguredKindKept | src/mcp_server_qdrant/qdrant.py:180-198 | A configured field that already has its configured kind keeps it, whatever the faults. |
| Qdrant.QdrantConnector.IndexesAfterIdempotent | src/mcp_server_qdrant/qdrant.py:179-198 | Attempting the configured indexes a second time changes no index, provided every attempt that succeeds the second time had succeeded the first time. |
| Qdrant.QdrantConnector.EnsureTwiceKeeps | src/mcp_server_qdrant/qdrant.py:157-198 | Whatever the index faults, a second call creates nothing and sends only the existence check and the index requests. It keeps the vectors, the points and every index, and every index the first call created keeps its kind. |
| Qdrant.QdrantConnector.SecondRoundKeeps | src/mcp_server_qdrant/qdrant.py:180-198 | A second round of index requests loses no index, and every index the first round created keeps its kind. |
| Qdrant.QdrantConnector.EnsureIdempotent | src/mcp_server_qdrant/qdrant.py:157-198 | Ensuring a collection twice leaves it as the first call did when no index attempt succeeds the second time after failing the first time. |
| Qdrant.QdrantConnector.EnsureKeepsExisting | src/mcp_server_qdrant/qdrant.py:162-163 | An existing collection keeps its vectors and points. Only the existence check and one request per configured index are sent. |
| Qdrant.QdrantConnector.EnsureCreatesNamedVector | src/mcp_server_qdrant/qdrant.py:163-177 | An absent collection is created empty, with exactly one vector: the provider's name and size. |
| Qdrant.QdrantConnector.Store | src/mcp_server_qdrant/qdrant.py:63-91 | Without a collection name or a default, the call raises and changes nothing. Otherwise it ensures the collection, embeds the content once and upserts exactly one point, carrying the document and metadata under the provider's vector name. |
| Qdrant.QdrantConnector.Search | src/mcp_server_qdrant/qdrant.py:93-155 | An absent collection gives `[]` after the existence check alone, with nothing created or embedded. Otherwise the collection is ensured, the query is embedded once, and the outcome and requests are those of the query with its fallback. |
| Qdrant.QdrantConnector.QueryWithFallback | src/mcp_server_qdrant/qdrant.py:127-155 | The outcome is the named-vector query's outcome, or the single retry's when the first error mentions an unconfigured vector. The requests are those queries. |
| Qdrant.QdrantConnector.NamedVectorServes | src/mcp_server_qdrant/qdrant.py:127-134 | When the named vector is configured and no fault occurs, one query with `using` set gives the backend's ranking up to `limit`. |
| Qdrant.QdrantConnector.FallbackToUnnamedVector | src/mcp_server_qdrant/qdrant.py:135-145 | On a collection with only an unnamed vector, exactly one retry follows without `using`, with the same vector, limit and filter. It gives the ranking of the unnamed vector. |
| Qdrant.QdrantConnector.OtherErrorsRaised | src/mcp_server_qdrant/qdrant.py:146-147 | Any other first error is raised unchanged after a single request. |
| Qdrant.QdrantConnector.SearchWithinLimit | src/mcp_server_qdrant/qdrant.py:127-155 | A search never returns more than `limit` entries. |
| Counting.Insert | src/mcp_server_qdrant/outlook_tools.py:206 | Insertion adds exactly the new item. |
| Counting.SortDescending | src/mcp_server_qdrant/outlook_tools.py:206 | The ranking is a permutation of the input. |
| Counting.InsertDescending | src/mcp_server_qdrant/outlook_tools.py:206 | Insertion keeps the order descending. |
| Counting.InsertWithKey | src/mcp_server_qdrant/outlook_tools.py:206 | Insertion places the new item after every item with the same key. |
| Counting.SortIsDescending | src/mcp_server_qdrant/outlook_tools.py:206 | The ranking is in descending key order. |
| Counting.SortIsStable | src/mcp_server_qdrant/outlook_tools.py:206 | Items with equal keys keep their relative order. |
| Counting.TotalUpdate | src/mcp_server_qdrant/enterprise_tools.py:350 | Changing one count changes the total by the difference. |
| Counting.CountWithinTotal | src/mcp_server_qdrant/enterprise_tools.py:391 | No single count exceeds the total. |
| Counting.IncCount | src/mcp_server_qdrant/enterprise_tools.py:350 | `counter[k] += 1` raises that key's count by one and leaves every other count alone. |
| Counting.IncTotal | src/mcp_server_qdrant/enterprise_tools.py:350 | `counter[k] += 1` raises the total by one. |
| Counting.OccurrencesAreMultiplicity | src/mcp_server_qdrant/enterprise_tools.py:354-355 | The number of times a key occurs in a list is its multiplicity. |
| Counting.IncAllOccurrences | src/mcp_server_qdrant/enterprise_tools.py:354-355 | Counting a list raises each key's count by its number of occurrences. |
| Counting.IncAllTotal | src/mcp_server_qdrant/enterprise_tools.py:354-355 | Counting a list raises the total by its length. |
| Counting.IncAllUnique | src/mcp_server_qdrant/enterprise_tools.py:354-355 | Counting never repeats a key. |
| Counting.AllHashableSnoc | src/mcp_server_qdrant/enterprise_tools.py:354-355 | A list stays countable when a hashable item is added. |
| Counting.IncAllSnoc | src/mcp_server_qdrant/enterprise_tools.py:354-355 | Counting one more item is one more increment. |
| Counting.CountAll | src/mcp_server_qdrant/enterprise_tools.py:354-355 | The counting loop succeeds exactly when every key is hashable, and then it adds each key's occurrences to the counter. The theme loop and the label loop (src/mcp_server_qdrant/outlook_tools.py:141-142) both run it. |
| Counting.MostCommon | src/mcp_server_qdrant/outlook_tools.py:151 | `most_common(n)` gives `min(n, len)` pairs. |
| Counting.PrefixOutranksRest | src/mcp_server_qdrant/outlook_tools.py:206-209 | In a descending list, nothing after the cut outranks anything before it. |
| Counting.MostCommonIsTop | src/mcp_server_qdrant/outlook_tools.py:151 | `most_common(n)` is descending and drawn from the counter. No pair left out has a larger count than a pair shown. |
| Counting.MostCommonWithinTotal | src/mcp_server_qdrant/enterprise_tools.py:391 | No reported count exceeds the total. |
| Counting.MostCommonKeepsTieOrder | src/mcp_server_qdrant/outlook_tools.py:151 | Keys with equal counts keep their first-seen order. |
| EnterpriseTools.EnsureConditionList | src/mcp_server_qdrant/enterprise_tools.py:21-33 | `None` gives `[]`, a list is returned as it is, and a single condition gives `[c]`. |
| EnterpriseTools.ConditionListRoundTrip | src/mcp_server_qdrant/enterprise_tools.py:21-33 | Listing the bucket that `make_filter` builds from a list gives back that list. |
| EnterpriseTools.MergeFilters | src/mcp_server_qdrant/enterprise_tools.py:36-58 | The result is `None` exactly when both inputs are. One missing input gives the other unchanged, including its `should`. When both are present, `must` and `must_not` are the concatenations in order, empty ones become absent, and `should` is dropped. |
| EnterpriseTools.MergeAssociative | src/mcp_server_qdrant/enterprise_tools.py:36-58 | Merging is associative. |
| EnterpriseTools.MergeDropsShould | src/mcp_server_qdrant/enterprise_tools.py:55-58 | A `should` condition is lost when merged with an empty filter. |
| EnterpriseTools.ScaledLimit | src/mcp_server_qdrant/enterprise_tools.py:226 | The limit is `min(3 * search_limit, cap)`. |
| EnterpriseTools.StringList | src/mcp_server_qdrant/enterprise_tools.py:207 | A list of strings is passed as a list of the same length. |
| EnterpriseTools.AddIf | src/mcp_server_qdrant/enterprise_tools.py:206-211 | Adding a key appends exactly that entry, and otherwise the map is unchanged. |
| EnterpriseTools.AddIfKeys | src/mcp_server_qdrant/enterprise_tools.py:206-211 | After the addition, a key is present exactly when it was before or is the added one. |
| EnterpriseTools.AddIfToolValues | src/mcp_server_qdrant/enterprise_tools.py:206-211 | Adding a non-null tool argument keeps the map made of non-null tool arguments. |
| EnterpriseTools.AnalyzeValues | src/mcp_server_qdrant/enterprise_tools.py:203 | The analysis value map starts with `repository_id`. |
| EnterpriseTools.AnalyzeValuesKeys | src/mcp_server_qdrant/enterprise_tools.py:203-211 | `themes`, `programming_language` and `directory` are present exactly when truthy. All values are non-null tool arguments. |
| EnterpriseTools.FindValues | src/mcp_server_qdrant/enterprise_tools.py:279 | The implementation value map starts with `repository_id`. |
| EnterpriseTools.FindValuesKeys | src/mcp_server_qdrant/enterprise_tools.py:279-286 | `themes` and `programming_language` are present exactly when truthy. `complexity_score` is present exactly when given, even when it is 0. |
| EnterpriseTools.SearchRepositoryRequest | src/mcp_server_qdrant/enterprise_tools.py:133-154 | The value map is `{repository_id}` alone. The call fails exactly when compiling it fails. Otherwise there is one search with the limit unchanged and the compiled filter merged with the caller's. |
| EnterpriseTools.AnalyzeRepositoryRequest | src/mcp_server_qdrant/enterprise_tools.py:202-232 | Fails exactly when compiling the analysis map fails. Otherwise it searches with the themed query, `min(3 * search_limit, 100)` and the compiled filter. |
| EnterpriseTools.FindImplementationsRequest | src/mcp_server_qdrant/enterprise_tools.py:278-301 | Fails exactly when compiling the implementation map fails. Otherwise it searches with the pattern, the limit unchanged and the compiled filter. |
| EnterpriseTools.ExpectedConditions | src/mcp_server_qdrant/enterprise_tools.py:203-211 | One expected condition per tool argument. |
| EnterpriseTools.ExposedServesToolArguments | src/mcp_server_qdrant/enterprise_config.py:15-130 | The code-search registry has the type and condition each tool argument relies on. |
| EnterpriseTools.MatchValueStep | src/mcp_server_qdrant/common/filters.py:30-36 | A keyword/`==` field compiles to one `MatchValue` in `must`. |
| EnterpriseTools.MatchAnyStep | src/mcp_server_qdrant/common/filters.py:43-48 | A keyword/`any` field compiles to one `MatchAny` in `must`. |
| EnterpriseTools.LowerBoundStep | src/mcp_server_qdrant/common/filters.py:80-85 | An integer/`>=` field compiles to one lower-bound `Range` in `must`. |
| EnterpriseTools.ToolArgumentStep | src/mcp_server_qdrant/enterprise_tools.py:203-211 | Each non-null tool argument compiles to exactly its expected `must` condition. |
| EnterpriseTools.ExpectedConditionsSnoc | src/mcp_server_qdrant/enterprise_tools.py:203-211 | Expected conditions follow the map's order. |
| EnterpriseTools.MustOnlyEmissions | src/mcp_server_qdrant/common/filters.py:16-196 | If every entry emits its expected `must` condition, the map emits exactly those, in order. |
| EnterpriseTools.ToolArgumentsCompile | src/mcp_server_qdrant/enterprise_tools.py:203-217 | A map of non-null tool arguments compiles to its expected `must` conditions, in order. |
| EnterpriseTools.RepositoryFilterLeads | src/mcp_server_qdrant/enterprise_tools.py:134-146 | The search filter is the single repository condition. After merging with any caller filter, the repository condition comes first in `must`. |
| EnterpriseTools.SearchIsScopedToRepository | src/mcp_server_qdrant/enterprise_tools.py:134-146 | The same against the code-search registry. |
| EnterpriseTools.ToolFiltersLead | src/mcp_server_qdrant/enterprise_tools.py:203-293 | The analysis and implementation maps compile to `must`-only filters whose first condition scopes the repository. |
| EnterpriseTools.AnalyzeAndFindAreScopedToRepository | src/mcp_server_qdrant/enterprise_tools.py:203-293 | The same against the code-search registry. |
| EnterpriseTools.SearchRepositoryAnswer | src/mcp_server_qdrant/enterprise_tools.py:156-166 | No results give one message. Otherwise there is a header counting the snippets, then one snippet per entry in backend order. |
| EnterpriseTools.FindImplementationsAnswer | src/mcp_server_qdrant/enterprise_tools.py:303-317 | No results give one message. Otherwise there is a header, then one block per entry ranked 1..n in backend order. |
| EnterpriseTools.Number | src/mcp_server_qdrant/enterprise_tools.py:376-377 | Exactly integers, floats and booleans can be added to the line total. A number counts as itself and a boolean as 0 or 1. |
| EnterpriseTools.SumNumbers | src/mcp_server_qdrant/enterprise_tools.py:381 | A list has a sum exactly when each element is an integer, a float or a boolean. |
| EnterpriseTools.Flag | src/mcp_server_qdrant/enterprise_tools.py:370-373 | A flag counts one exactly when the metadata value is truthy. |
| EnterpriseTools.TallyFailurePropagates | src/mcp_server_qdrant/enterprise_tools.py:342-377 | Once a prefix raises, the whole loop raises the same error. |
| EnterpriseTools.TallyStep | src/mcp_server_qdrant/enterprise_tools.py:342-377 | One loop step absorbs the entry's metadata, or skips an entry without it. |
| EnterpriseTools.DescribedCount | src/mcp_server_qdrant/enterprise_tools.py:343-344 | The number of entries with metadata never exceeds the number of entries. |
| EnterpriseTools.DescribedOnly | src/mcp_server_qdrant/enterprise_tools.py:343-344 | The entries with metadata, as many as counted. |
| EnterpriseTools.UndescribedEntriesIgnored | src/mcp_server_qdrant/enterprise_tools.py:343-344 | Entries without metadata change no counter. |
| EnterpriseTools.AbsorbTotals | src/mcp_server_qdrant/enterprise_tools.py:348-377 | One entry adds one to the language, directory and file-type totals and one complexity score, and at most one to each flag count. |
| EnterpriseTools.TallyCounts | src/mcp_server_qdrant/enterprise_tools.py:342-377 | The language, directory and file-type totals and the number of scores all equal the number of entries with metadata. Each flag count is at most that number. |
| EnterpriseTools.ReportBounds | src/mcp_server_qdrant/enterprise_tools.py:329-428 | An empty list gives the single message. Otherwise the report counts every entry as analysed and the described ones as scored. The flag counts are within that number. At most 5, 10, 8 and 8 items are listed for languages, themes, directories and file types, and no listed language, directory or file-type count exceeds the number described. |
| EnterpriseTools.CountFlag | src/mcp_server_qdrant/enterprise_tools.py:370-373 | The flag count rises by the flag. |
| EnterpriseTools.CountEntry | src/mcp_server_qdrant/enterprise_tools.py:346-377 | The loop body computes exactly one entry's absorption or error. |
| EnterpriseTools.AnalyzeCodePatterns | src/mcp_server_qdrant/enterprise_tools.py:320-428 | The method computes exactly the specified analysis or error. |
| OutlookTools.EnsureConditionList | src/mcp_server_qdrant/outlook_tools.py:21-27 | `None` gives `[]`, a list is returned as it is, and a single condition gives `[c]`. |
| OutlookTools.EmailOf | src/mcp_server_qdrant/outlook_tools.py:136-137 | No metadata gives an empty record. Reading the record raises an attribute error exactly when `email` is present and not a dictionary. |
| OutlookTools.FocusTokens | src/mcp_server_qdrant/outlook_tools.py:108 | The tokens are exactly the non-empty strings among the focus terms, none added. |
| OutlookTools.JoinNonEmpty | src/mcp_server_qdrant/outlook_tools.py:108-109 | Joining tokens that start with a non-empty one is non-empty. |
| OutlookTools.MailboxQueryPrependsTokens | src/mcp_server_qdrant/outlook_tools.py:105-112 | Without qualifying terms the default query is used. Otherwise the joined tokens come before it. |
| OutlookTools.AnalyzeMailboxRequest | src/mcp_server_qdrant/outlook_tools.py:105-122 | The search uses the mailbox query, `min(3 * search_limit, 100)` and the caller's filter. |
| OutlookTools.DayOf | src/mcp_server_qdrant/outlook_tools.py:146 | A falsy date gives no day. A truthy non-string raises. A string gives its prefix before the first `T`. |
| OutlookTools.CountIfTruthy | src/mcp_server_qdrant/outlook_tools.py:138-148 | Counting raises exactly for a truthy unhashable key. |
| OutlookTools.CountIfTruthyTotal | src/mcp_server_qdrant/outlook_tools.py:138-148 | Only a truthy key raises the total, by one. |
| OutlookTools.BareEntryCountsNothing | src/mcp_server_qdrant/outlook_tools.py:136-137 | An entry without metadata changes no counter. |
| OutlookTools.TallyEmailTotals | src/mcp_server_qdrant/outlook_tools.py:138-148 | One email raises the sender, thread and day totals by at most one each. |
| OutlookTools.MailboxTotalsWithinSample | src/mcp_server_qdrant/outlook_tools.py:135-148 | The sender, thread and day totals never exceed the sample size. |
| OutlookTools.CountKey | src/mcp_server_qdrant/outlook_tools.py:139-140 | The `if x: counter[x] += 1` step, as specified. |
| OutlookTools.CountEmail | src/mcp_server_qdrant/outlook_tools.py:136-148 | The loop body computes exactly one email's counts or error. |
| OutlookTools.JoinEndsWithLast | src/mcp_server_qdrant/outlook_tools.py:151 | A joined list ends with its last part. |
| OutlookTools.Top | src/mcp_server_qdrant/outlook_tools.py:150-151 | `_top` gives `None` exactly for an empty counter. |
| OutlookTools.AnalyzeMailboxAnswer | src/mcp_server_qdrant/outlook_tools.py:124-162 | The method computes exactly the specified summary or error. |
| OutlookTools.MailboxFailurePropagates | src/mcp_server_qdrant/outlook_tools.py:135-148 | Once a prefix raises, the whole loop raises the same error. |
| OutlookTools.EffectiveQuery | src/mcp_server_qdrant/outlook_tools.py:182 | An empty or missing query falls back to the thread query. |
| OutlookTools.FindThreadsRequest | src/mcp_server_qdrant/outlook_tools.py:178-189 | The search uses the effective query, `min(3 * search_limit, 200)` and the caller's filter. `thread_id` plays no part. |
| OutlookTools.NoThreadsMessage | src/mcp_server_qdrant/outlook_tools.py:191-194 | `thread_id` only changes the no-results message. |
| OutlookTools.ThreadKey | src/mcp_server_qdrant/outlook_tools.py:201-203 | A thread key is always truthy and hashable. |
| OutlookTools.GroupByKeysEvery | src/mcp_server_qdrant/outlook_tools.py:199-203 | When grouping succeeds, every element had a key. |
| OutlookTools.GroupsAreMembers | src/mcp_server_qdrant/outlook_tools.py:199-203 | Each group holds exactly the elements with its key, in order, and no key is listed twice. |
| OutlookTools.MembersIff | src/mcp_server_qdrant/outlook_tools.py:199-203 | An element is in group `k` exactly when it is in the list and its key is `k`. |
| OutlookTools.EachEntryInExactlyOneThread | src/mcp_server_qdrant/outlook_tools.py:199-203 | Every returned message lands in exactly one thread, the one of its own key. |
| OutlookTools.Blocks | src/mcp_server_qdrant/outlook_tools.py:209-218 | One block per thread shown, ranked from 1. |
| OutlookTools.GroupByThread | src/mcp_server_qdrant/outlook_tools.py:199-203 | The grouping loop computes exactly the specified grouping or error. |
| OutlookTools.GroupFailurePropagates | src/mcp_server_qdrant/outlook_tools.py:200-203 | Once a prefix raises, the whole loop raises the same error. |
| OutlookTools.FindThreadsAnswer | src/mcp_server_qdrant/outlook_tools.py:191-220 | The method computes exactly the specified answer or error. |
| OutlookTools.RenderBlocks | src/mcp_server_qdrant/outlook_tools.py:209-218 | The block loop lays out exactly the ranked blocks. |
| OutlookTools.ThreadsAnswerRanks | src/mcp_server_qdrant/outlook_tools.py:206-218 | The header counts the threads. At most five blocks follow, ranked 1..k, largest first, each holding exactly the messages of its thread. |
| OutlookTools.RankedLinesShape | src/mcp_server_qdrant/outlook_tools.py:206-218 | The same shape over any grouping, each block a thread of the grouping. |
| OutlookTools.ThreadsShownAreLargest | src/mcp_server_qdrant/outlook_tools.py:206-209 | No thread left out is larger than a thread shown. |
| OutlookTools.EqualThreadsKeepOrder | src/mcp_server_qdrant/outlook_tools.py:206 | Threads of equal size keep the order of their first message. |

## Left out

- **Network, embedding and client I/O.** The embedding vectors are parameters, and `embed_documents`, `embed_query` and the lazily created VoyageAI client are not modelled. The store's similarity ranking and query faults are functions given to the backend, and its result order is taken as given. Index faults are a map given to the backend, keyed by collection, field and attempt number, so a field that failed once may succeed on a later call.
- **Point ids.** The random `uuid4().hex` point id is a parameter of `Store`.
- **Async and logging.** Asynchronous calls are modelled as sequential methods. Debug messages and logging have no effect.
- **Output formatting.** Averages, percentages and the text layout of the code-analysis report and the mailbox summary are floating-point formatting and are left out. The counts and lists they are built from are modelled.
- **Result rendering.**
  - `format_code_entry`, `_extract_implementation_context` and `_format_email_entry` are left out.
  - A code-search result line keeps its entry.
  - A thread block keeps its rank, key and messages. Its message count is `|messages|`, and its sample subject is `SampleSubject` of the messages.
- **Tools outside the core.** `search_emails` and the tool registration in `mcp_server.py` are not part of this model.
- **Validation.** pydantic validation and environment parsing of the settings are left out, except the declared field-type literal under Findings. Validation of filter operands by the Qdrant client models is also left out: a `MatchAny` with a scalar, or a range on a string, passes through as given.
- **Missing enterprise module.** The `ImportError` fallback of the enterprise registry is the `None` case of a parameter.
- **Counter keys.** A Python `Counter` treats `True`, `1` and `1.0` as one key. The model keeps them apart.
- **Floats.** A `float` is the exact real it stands for, without double rounding. `str` of a float is written positionally with at most 17 fraction digits; Python's exponent form for very large or very small magnitudes and its shortest round-trip digits are not modelled.
- **String `repr`.** Inside containers, strings are quoted and escaped as `repr` does for quotes, backslashes, newlines, carriage returns and tabs. Escapes of other non-printable characters are not modelled.
- **Search with no collection name.** When neither a name nor a default is set, `search` passes `None` to `collection_exists`. The model takes the store's answer to be False, so the search returns `[]` after that one request.
- **Limits and integers.** Negative search limits are not modelled: limits are natural numbers. Integers are unbounded, as in Python.
- **Merged caller filters.** A caller filter that is a non-empty dictionary with every bucket null becomes an all-absent `Filter` in the model, as it does in the code. Its further validation by the client is left out.
- **Partial counter updates.** When the loops of `_analyze_code_patterns` or `analyze_mailbox` raise, Python has already incremented some counters. The model returns only the error, since the counters are discarded with the exception.
- **Backend transport errors.** Failures of the existence check, collection creation and upsert are not modelled. Only query and index faults are.
- **Tests that contradict the code.** A few tests expect a different compilation of `themes`, a repeated search, or enterprise fields under default settings. The model follows the code.
- **Merging keeps the code's behaviour.** `EnterpriseTools.MergeFilters` drops `should` when both filters are present, as the code does.

## Findings

| source | as written | input that shows it | evidently intended | confidence | as-written member | corrected member |
|---|---|---|---|---|---|---|
| src/mcp_server_qdrant/settings.py:79 | The `field_type` literal admits only `keyword`, `integer`, `float` and `boolean`. | The Outlook catalog's `email.subject` field with type `text` (src/mcp_server_qdrant/enterprise_config_outlook.py:18), which `make_filter` and `make_indexes` both handle. | `text` is an admitted field type. | not executed | OutlookConfig.CatalogRejectedByDeclaredTypes | OutlookConfig.CatalogAcceptedByCorrectedTypes |
