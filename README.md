# Haystack search core, modelled in Dafny

This project models the query-building and result-shaping core of Haystack. Haystack is a Django search layer with two engine backends, Whoosh and Solr, and a set of search-field types. The model covers five parts.

- **Query compilation.** `build_query` turns filter atoms into a query string. Each atom has a field, an operator, a value and a connector. The value is stringified and phrase-quoted, `content` is unqualified, the `in` operator becomes an OR group, and one leading `AND`/`OR` chunk is dropped. A models clause and boost terms are attached at the end. Whoosh and Solr share this code and differ only in the match-all query and the range templates. It is one imperative method, proved against the specification function `Compile`.
- **Cleaning.** `clean` lowercases reserved words and backslash-escapes reserved characters with 18 successive `replace` passes. The model proves those passes equal one left-to-right escaping scan. It also proves that the scan is undone by removing the backslashes.
- **Whoosh backend.** This part covers the schema built from the unified field list, the lazy setup, and the guards in `search`: the empty query, reverse sorting, and the empty index. It also covers how `_process_results` strips the bookkeeping keys.
- **Solr backend.** `run` shapes its options: sort clauses, and the end offset turned into a row count. `search` builds a parameter map. `_process_results` pairs the flat facet lists and attaches highlighting. Unlike Whoosh, it requires `score` and `id` on every document.
- **Search fields.** `prepare` takes its value from a template, a model attribute (called when callable) or the default. The model covers the template path and its error, and the per-subclass defaults and coercions.

Python values are modelled by the `Python.PyValue` datatype. Python's exceptions are `Python.Error`, returned through `Result`. The engines, the Solr connection, pysolr's value formatting and Django's template renderer are parameters of the model.

Modules:
- `wrappers.dfy`: `Option` and `Result`.
- `text.dfy`: `str.split()` and `" ".join`, `replace`, `split('.')`, `lower`, and integer text.
- `python.dfy`: values and errors.
- `query_compiler.dfy`: `build_query` for both engines.
- `clean.dfy`: `clean` for both engines.
- `results.dfy`: the response shapes shared by both backends.
- `whoosh_backend.dfy`, `solr_backend.dfy`: the two backends.
- `fields.dfy`: the search fields.

## Model

| member | source | states |
|---|---|---|
| QueryCompiler.PhraseValue | haystack/backends/whoosh_backend.py:271-278 | The quoted value exists exactly when the value is not None, and is text or a list. |
| QueryCompiler.AtomChunks | haystack/backends/whoosh_backend.py:261-301 | An atom contributes at least one chunk, and fails exactly when its value is None. |
| QueryCompiler.ChunksOf | haystack/backends/whoosh_backend.py:259-301 | Successful chunking yields at least one chunk per atom. |
| QueryCompiler.ChunksOfFailsAt | haystack/backends/whoosh_backend.py:261-301 | The first failing atom decides the error of the whole chunk list. |
| QueryCompiler.QuoteValue | haystack/backends/whoosh_backend.py:271-278 | The imperative stringify-then-quote equals `PhraseValue`. |
| QueryCompiler.Predicate | haystack/backends/whoosh_backend.py:280-301 | The imperative predicate choice (content, operator template or `in` group) equals `PredicateChunk`. |
| QueryCompiler.AppendAtom | haystack/backends/whoosh_backend.py:261-301 | Appending an atom extends the chunk list by that atom's chunks, or returns that atom's error. |
| QueryCompiler.BoostList | haystack/backends/whoosh_backend.py:316-320 | One `word^weight` term per boost entry, in order. |
| QueryCompiler.BuildQuery | haystack/backends/whoosh_backend.py:252-324 | The imperative `build_query` returns exactly `Compile` for its engine: the same string and the same exceptions. |
| QueryCompiler.Compile | haystack/backends/whoosh_backend.py:252-324 | The reference definition of `build_query`: the query clause, then the model clause and boosts. `BuildQuery` is proved equal to it; `CompileRaises`, `LeadingConnectorDropped`, `EmptyFiltersMatchAll` and `ModelsAndBoosts` state its behaviour. |
| QueryCompiler.EmptyFiltersMatchAll | haystack/backends/whoosh_backend.py:255-257 | No filters compile to `*` (Whoosh) or `*:*` (Solr), and never fail. |
| QueryCompiler.ChunksOfCons | haystack/backends/whoosh_backend.py:261-301 | The chunk list of a filter list is the first atom's chunks followed by the rest's. |
| QueryCompiler.ChunksOfShape | haystack/backends/whoosh_backend.py:271-307 | Chunks exist if and only if no value is None. They are all text if and only if no content atom has an unquoted list value. |
| QueryCompiler.CompileRaises | haystack/backends/whoosh_backend.py:271-307 | Compilation fails if and only if some value is None or some content atom has an unquoted list value. |
| QueryCompiler.LeadingConnectorDropped | haystack/backends/whoosh_backend.py:303-305 | A leading `AND`/`OR` connector chunk is removed. A leading `NOT` is kept. Without a connector, the predicate itself is kept unless it is the text `AND` or `OR`. |
| QueryCompiler.QueryStartsWithPredicate | haystack/backends/whoosh_backend.py:303-307 | After a leading `AND`/`OR` connector, the query starts with the first atom's predicate. |
| QueryCompiler.QueryStartsWithNot | haystack/backends/whoosh_backend.py:265-307 | A first atom joined with `NOT` starts the query with `NOT ` and its predicate. |
| QueryCompiler.AtomChunksOf | haystack/backends/whoosh_backend.py:262-301 | An atom's chunks are its connector chunk, then its predicate. |
| QueryCompiler.SingleAtomChunks | haystack/backends/whoosh_backend.py:259-301 | A one-atom filter list chunks as that atom. |
| QueryCompiler.LeadingChunkTestIsOnText | haystack/backends/whoosh_backend.py:303-305 | The leading-chunk test looks at the text: a lone content value `AND` compiles to the empty query, and `AND OR` keeps `OR`. |
| QueryCompiler.TemplateHasColon | haystack/backends/whoosh_backend.py:285-291 | Every operator template puts `:` between field and value. |
| QueryCompiler.SingleAtom | haystack/backends/whoosh_backend.py:285-294 | A single non-content atom compiles to its operator template. |
| QueryCompiler.WhooshOperatorTemplates | haystack/backends/whoosh_backend.py:285-294 | The five Whoosh templates: `f:v`, `f:v..*`, `NOT f:*..v`, `f:*..v`, `NOT f:v..*`. |
| QueryCompiler.SolrOperatorTemplates | haystack/backends/solr.py:212-221 | The five Solr templates: `f:v`, `f:{v TO *}`, `f:[v TO *]`, `f:{* TO v}`, `f:[* TO v]`. |
| QueryCompiler.TwoAtomChunks | haystack/backends/whoosh_backend.py:261-301 | Two atoms chunk as the concatenation of their chunks. |
| QueryCompiler.SolrConjunction | haystack/backends/solr.py:188-234 | An exact atom followed by an `AND`-joined gte atom compiles to `f1:v1 AND f2:[v2 TO *]`. |
| QueryCompiler.InOperator | haystack/backends/whoosh_backend.py:295-301 | `in` yields `(f:x1 OR f:x2 ...)` over the members' text. |
| QueryCompiler.InScenario | haystack/backends/whoosh_backend.py:295-301 | `tag in [a, b]` compiles to `(tag:a OR tag:b)` on both engines. |
| QueryCompiler.ContentIsUnqualified | haystack/backends/whoosh_backend.py:280-283 | A content atom contributes its (quoted) value with no field prefix, for any operator. |
| QueryCompiler.NumbersStringified | haystack/backends/whoosh_backend.py:273-274 | Integers become their decimal text, and booleans `True`/`False`. |
| QueryCompiler.PhraseQuoting | haystack/backends/whoosh_backend.py:276-278 | Text containing a space is wrapped in double quotes; other text is unchanged. |
| QueryCompiler.ListMembershipTest | haystack/backends/whoosh_backend.py:276-278 | On a list, the space test is membership of `' '`, so `["a b"]` stays an unquoted list. |
| QueryCompiler.ChunksAgree | haystack/backends/solr.py:188-228 | Without range operators, both engines produce the same chunks. |
| QueryCompiler.EnginesAgreeWithoutRanges | haystack/backends/solr.py:179-251 | Without range operators, a non-empty filter list compiles to the same query on both engines. |
| QueryCompiler.ModelsAndBoosts | haystack/backends/whoosh_backend.py:309-322 | Models and boosts never cause failure. Models wrap the query as `(q) AND (django_ct_s:"a.m" OR ...)`. Boosts append the terms after a space. |
| Clean.PatternShape | haystack/backends/whoosh_backend.py:23-26 | Entries 3 and 4 of the reserved list are `&&` and `\|\|`; every other entry is the single character of that rank. |
| Clean.RankedPattern | haystack/backends/whoosh_backend.py:23-26 | A ranked character is its own entry in the reserved list. |
| Clean.Escape | haystack/backends/whoosh_backend.py:335-336 | The reference definition of the 18 replace passes as one scan. `EscapeWord` is proved equal to it; `UnescapeEscape`, `EscapePlain` and `EscapeLetters` state its behaviour. |
| Clean.Unescape | haystack/backends/whoosh_backend.py:335-336 | The inverse of `Escape`, removing each inserted backslash; `UnescapeEscape` proves it undoes `Escape`. |
| Clean.CleanFragment | haystack/backends/whoosh_backend.py:326-340 | The reference definition of `clean`. `CleanQuery` is proved equal to it; `CleanKeepsWords`, `CleanNormalisesSpace`, `CleanWordIsWord` and `CleanWordRoundTrip` state its behaviour. |
| Clean.EscapeUpToZero | haystack/backends/whoosh_backend.py:335-336 | No passes leave the word unchanged. |
| Clean.EscapeStep | haystack/backends/whoosh_backend.py:335-336 | One more `replace` pass over the result of the first k passes equals the scan that escapes the first k+1 patterns. |
| Clean.EscapeWord | haystack/backends/whoosh_backend.py:335-336 | The loop of 18 `replace` passes equals `Escape`. |
| Clean.CleanQuery | haystack/backends/whoosh_backend.py:326-340 | The imperative `clean` equals `CleanFragment`: split, lowercase the reserved words, escape, and join with spaces. |
| Clean.UnescapeEscape | haystack/backends/whoosh_backend.py:335-336 | Escaping loses nothing: removing the inserted backslashes gives the word back. |
| Clean.EscapePlain | haystack/backends/whoosh_backend.py:335-336 | A word with no reserved character, `&` or `\|` is unchanged by any number of passes. |
| Clean.EscapeLetters | haystack/backends/whoosh_backend.py:335-336 | Lowercase-letter words are unchanged by escaping. |
| Clean.CleanWordIsWord | haystack/backends/whoosh_backend.py:331-338 | A cleaned word is non-empty and contains no whitespace. |
| Clean.CleanKeepsWords | haystack/backends/whoosh_backend.py:328-340 | Splitting the cleaned fragment gives exactly the cleaned words, one per input word. |
| Clean.CleanNormalisesSpace | haystack/backends/whoosh_backend.py:328-340 | Cleaning ignores how the words were spaced. |
| Clean.CleanWordRoundTrip | haystack/backends/whoosh_backend.py:331-336 | Unescaping a cleaned word gives the word, lowercased when reserved. |
| Clean.CleanPlainWord | haystack/backends/whoosh_backend.py:331-336 | A non-reserved word without special characters is unchanged. |
| Clean.CleanReservedWord | haystack/backends/whoosh_backend.py:332-333 | `AND`, `NOT`, `OR` and `TO` are lowercased and need no escaping. |
| Clean.EscapeExamples | haystack/backends/whoosh_backend.py:23-26 | `a:b` becomes `a\:b`, `&&` becomes `\&&`, a lone `&` is untouched, and `\` is doubled. |
| Text.SplitJoin | haystack/backends/whoosh_backend.py:328 | Joining non-empty words that contain no whitespace with single spaces, then splitting, gives the same words back. |
| Text.ParseIntRoundTrip | haystack/fields.py:72 | `int()` of an integer's decimal text is that integer. |
| Results.Lookup | haystack/backends/whoosh_backend.py:221-222 | Indexing a record succeeds exactly when the key is present; otherwise it is KeyError of that key. |
| Results.SplitContentType | haystack/backends/whoosh_backend.py:215 | Splitting a non-string is an AttributeError; the two names of a successful split are dot-free. Specified by `ContentTypeRoundTrip`, `ContentTypeSplitJoins` and `ContentTypeNeedsOneDot`. |
| Text.SplitOnCount | haystack/backends/whoosh_backend.py:215 | `split('.')` gives one piece more than there are dots. |
| Results.ContentTypeRoundTrip | haystack/backends/whoosh_backend.py:215 | `app.model` with dot-free names splits back into `(app, model)`. |
| Results.ContentTypeSplitJoins | haystack/backends/whoosh_backend.py:215 | A successful split means the value was `app.model` with dot-free names. |
| Results.ContentTypeNeedsOneDot | haystack/backends/whoosh_backend.py:215 | The unpacking succeeds if and only if the text holds exactly one `.`; otherwise it is a ValueError. |
| Results.ContentTypeTwoDots | haystack/backends/whoosh_backend.py:215 | A dot-free name, and any three dot-free names joined by two dots, fail the unpacking. |
| WhooshBackend.SchemaField | haystack/backends/whoosh_backend.py:73-84 | A field fails exactly when it is not multi-valued and its type is not scalar or `text`, with SearchBackendError naming the type. Multi-valued fields are KEYWORD, and scalar IDs are never unique. |
| WhooshBackend.SchemaOf | haystack/backends/whoosh_backend.py:66-86 | The reference definition of `build_schema`. `BuildSchema` is proved equal to it; `SchemaFailsIff`, `SchemaKeys`, `SchemaLookup` and `SchemaBaseKept` state its behaviour. |
| WhooshBackend.BuildSchema | haystack/backends/whoosh_backend.py:66-86 | The imperative schema loop equals `SchemaOf`. |
| WhooshBackend.SchemaFailsAt | haystack/backends/whoosh_backend.py:73-84 | The first unsupported field decides the error. |
| WhooshBackend.SchemaFailsIff | haystack/backends/whoosh_backend.py:73-84 | Schema building fails if and only if some field is unsupported. |
| WhooshBackend.SchemaKeys | haystack/backends/whoosh_backend.py:67-86 | The schema's names are the three bookkeeping IDs plus every field name. |
| WhooshBackend.SchemaLookup | haystack/backends/whoosh_backend.py:73-82 | A field's last occurrence decides its schema entry. |
| WhooshBackend.SchemaBaseKept | haystack/backends/whoosh_backend.py:67-71 | `id`, `django_ct_s` and `django_id_s` keep their entries unless a field overrides them. |
| WhooshBackend.ReverseFlag | haystack/backends/whoosh_backend.py:161-172 | The sort loop equals `ReverseOf`. |
| WhooshBackend.ReverseCases | haystack/backends/whoosh_backend.py:163-172 | Reverse exactly for one `-` entry. Several entries with any `-` entry raise SearchBackendError. No `-` entry means no reverse. |
| WhooshBackend.ResultOf | haystack/backends/whoosh_backend.py:213-238 | The reference definition of one hit's result; `ResultFields` and `ResultNeedsKeys` state its behaviour. |
| WhooshBackend.ResponseOf | haystack/backends/whoosh_backend.py:209-244 | The reference definition of `_process_results`. `ProcessResults` is proved equal to it; `HitsCountResults` states its hit count. |
| WhooshBackend.ResultsOf | haystack/backends/whoosh_backend.py:213-238 | One result per hit. |
| WhooshBackend.ResultsFailAt | haystack/backends/whoosh_backend.py:213-238 | The first bad hit decides the error. |
| WhooshBackend.ProcessResults | haystack/backends/whoosh_backend.py:209-244 | The imperative loop equals `ResponseOf`. |
| WhooshBackend.ResultFields | haystack/backends/whoosh_backend.py:214-237 | A result keeps every stored field except `django_ct_s` and `django_id_s`, with its value. Its pk is `django_id_s` and its names come from `django_ct_s`. Its score defaults to 0. |
| WhooshBackend.ResultNeedsKeys | haystack/backends/whoosh_backend.py:215-222 | A hit without `django_ct_s` or `django_id_s` raises KeyError of that key. |
| WhooshBackend.HitsCountResults | haystack/backends/whoosh_backend.py:240-244 | Whoosh's `hits` is the number of results returned. |
| WhooshBackend.SearchOf | haystack/backends/whoosh_backend.py:152-200 | The reference definition of `search` after setup. `WhooshBackend.Search` is proved equal to it; `SearchGuards` states its guards. |
| WhooshBackend.WhooshBackend.constructor | haystack/backends/whoosh_backend.py:30-32 | A new backend is not set up. |
| WhooshBackend.WhooshBackend.Create | haystack/backends/whoosh_backend.py:30-35 | A missing WHOOSH_PATH raises ImproperlyConfigured. Otherwise a fresh backend is returned, not yet set up. |
| WhooshBackend.WhooshBackend.Setup | haystack/backends/whoosh_backend.py:37-64 | Setup records the content field and builds the schema. It is marked complete only when the schema builds. |
| WhooshBackend.WhooshBackend.Search | haystack/backends/whoosh_backend.py:152-200 | Setup runs lazily, once. The answer and the searcher call are `SearchOf` and `SearcherCallOf`. |
| WhooshBackend.SearchGuards | haystack/backends/whoosh_backend.py:155-200 | An empty query gives `[]`. Several sort keys with a `-` key raise an error. An empty index gives no results and no `facets` key. The searcher is asked to reverse exactly for a single `-` key. |
| SolrBackend.SortClauseRoundTrip | haystack/backends/solr.py:279-283 | A sort clause reads back as its order-by entry, direction included. |
| SolrBackend.SortClauses | haystack/backends/solr.py:277-283 | The sort loop yields one clause per order-by entry, in order: `f desc` for `-f`, `f asc` otherwise. |
| SolrBackend.RunArgsOf | haystack/backends/solr.py:269-304 | The reference definition of `run`'s option shaping. `RunOptions` is proved equal to it; `RunOffsetsAndSort` states its offsets and sort. |
| SolrBackend.RunOptions | haystack/backends/solr.py:269-304 | The imperative option shaping equals `RunArgsOf`. |
| SolrBackend.RunOffsetsAndSort | haystack/backends/solr.py:272-288 | `start + rows` is the requested end offset. A sort is passed exactly when there are order-by entries, as their clauses joined with `, `. |
| SolrBackend.AddDateParams | haystack/backends/solr.py:109-113 | The date-facet loop equals `DateParams`. |
| SolrBackend.ParamsOf | haystack/backends/solr.py:81-121 | The reference definition of `search`'s keyword map. `SearchParams` is proved equal to it; `FieldListParam`, `FacetSwitch`, `FacetListParams`, `PagingParams` and `DateFacetParams` state its entries. |
| SolrBackend.SearchParams | haystack/backends/solr.py:81-121 | The imperative keyword map equals `ParamsOf`. |
| SolrBackend.DateParamsKeep | haystack/backends/solr.py:109-113 | The per-field date entries never touch a parameter whose name does not start with `f.`. |
| SolrBackend.BaseKeep | haystack/backends/solr.py:101-108 | The facet options set only `facet`, `facet.field` and `facet.date`; every other parameter is as the result settings left it. |
| SolrBackend.ParamsKeep | haystack/backends/solr.py:105-121 | The date, query and existing facets set only `facet`, `facet.query`, `fq` and `f.` names; every other parameter is as before them. |
| SolrBackend.FieldListParam | haystack/backends/solr.py:81-86 | `fl` is the given field list, or `* score` when it is empty. |
| SolrBackend.FacetSwitch | haystack/backends/solr.py:101-121 | `facet=on` is sent if and only if one of the four facet options is given. |
| SolrBackend.FacetListParams | haystack/backends/solr.py:101-121 | `facet.field` is the field list. `facet.query` and `fq` are the `field:value` strings. No `fq` without existing facets. |
| SolrBackend.PagingParams | haystack/backends/solr.py:88-99 | `sort` and `rows` are sent exactly when given; `hl` exactly when highlight is `True` itself. |
| SolrBackend.DateKeyInjective | haystack/backends/solr.py:111-113 | Distinct facet keys or suffixes give distinct parameter names. |
| SolrBackend.DateFacetParams | haystack/backends/solr.py:105-113 | Each date facet gets its formatted start, formatted end and raw gap. |
| SolrBackend.PairUpFlatten | haystack/backends/solr.py:144-148 | Pairing a flat `[t1, c1, t2, c2, ...]` list gives the map of its pairs, a later term winning. |
| SolrBackend.PairUpOddTail | haystack/backends/solr.py:148 | A trailing term without a count is dropped. |
| SolrBackend.MapOfLookup | haystack/backends/solr.py:148 | With distinct terms, each term maps to its own count. |
| SolrBackend.MapOfKeys | haystack/backends/solr.py:148 | The paired map's keys are exactly the terms. |
| SolrBackend.PairFacetFields | haystack/backends/solr.py:144-148 | The in-place rewrite replaces every field's list by its pairing and keeps the same fields. |
| SolrBackend.ProcessFacets | haystack/backends/solr.py:137-148 | No facet block gives the empty dict. Otherwise the field facets are paired and the date and query facets are passed through. |
| SolrBackend.FacetsOf | haystack/backends/solr.py:137-148 | The reference definition of the facet block. `ProcessFacets` is proved equal to it; `SolrResponseShape` states its shape. |
| SolrBackend.SolrResultOf | haystack/backends/solr.py:150-165 | The reference definition of one document's result; `SolrResultFields` and `SolrResultNeedsKeys` state its behaviour. |
| SolrBackend.SolrResultsOf | haystack/backends/solr.py:150-165 | One result per document. |
| SolrBackend.SolrResultsFailAt | haystack/backends/solr.py:150-165 | The first bad document decides the error. |
| SolrBackend.SolrResponseOf | haystack/backends/solr.py:133-171 | The reference definition of `_process_results`. `ProcessResults` is proved equal to it; `SolrResponseShape` states its hits and facets. |
| SolrBackend.ProcessResults | haystack/backends/solr.py:133-171 | The imperative facet rewrite and document loop equal `SolrResponseOf`. |
| SolrBackend.SolrResultFields | haystack/backends/solr.py:150-165 | A result keeps every field but `django_ct_s`, `django_id_s` and `score`. It gains `highlighted` exactly when its `id` is highlighted. Its pk and score come from the document. |
| SolrBackend.SolrResultNeedsKeys | haystack/backends/solr.py:157-164 | A document without `score`, or without `id`, raises KeyError. |
| SolrBackend.SolrResponseShape | haystack/backends/solr.py:137-171 | `hits` is the engine's count. Facets are the empty dict without a facet block; otherwise the field facets are paired and dates and queries are passed through. |
| SolrBackend.SearchOf | haystack/backends/solr.py:75-124 | The reference definition of `search`'s answer: `[]` for an empty query, else the processed response. `Search` is proved equal to it. |
| SolrBackend.Search | haystack/backends/solr.py:75-124 | An empty query gives `[]` without a request. Otherwise the request carries `ParamsOf` and the answer is the processed response. |
| SolrBackend.RunOf | haystack/backends/solr.py:269-307 | The reference definition of what `run` stores. `SolrQuery.Run` is proved against it; `RunRaisesOnEmptyQuery` and `RunStoresResponse` state its behaviour. |
| SolrBackend.SolrQuery.Run | haystack/backends/solr.py:269-307 | `run` compiles, shapes the options and searches. It stores the results and the hit count, or returns the error and leaves them unchanged. The request is the compiled query with the shaped options. |
| SolrBackend.RunRaisesOnEmptyQuery | haystack/backends/solr.py:305-307 | A query that compiles to the empty string gets `[]` back, and `run` then raises AttributeError. |
| SolrBackend.RunStoresResponse | haystack/backends/solr.py:305-307 | A non-empty query stores one result per document, and the engine's hit count. |
| Fields.TemplatePath | haystack/fields.py:45-51 | SearchFieldError exactly when both names are missing. An explicit template name is used verbatim; otherwise it is the conventional path. |
| Fields.ConventionalPath | haystack/fields.py:51 | The path is under `search/indexes/` and ends in `.txt`. |
| Fields.PrepareTemplate | haystack/fields.py:37-54 | It succeeds if and only if a template name or an instance name is set. It fails only with SearchFieldError, and a success is text. |
| Fields.BasePrepare | haystack/fields.py:23-35 | It fails if and only if the field uses a template and has neither name, with SearchFieldError. `TemplateTakesPriority`, `AttributeUsed` and `DefaultUsed` state which source is used. |
| Fields.Coerce | haystack/fields.py:57-117 | CharField always gives text; BooleanField gives truthiness. IntegerField succeeds exactly as `int()` does. MultiValueField succeeds exactly on lists and strings, giving a list. The others pass the value through. |
| Fields.Prepare | haystack/fields.py:57-117 | A base failure is the subclass's failure. Char, Boolean, Date, DateTime and base fields fail only when the base fails. `Coerce`, `IntegerFromText` and `CharFieldIsText` state the conversions. |
| Fields.SearchField.PrepareObject | haystack/fields.py:23-54 | A template field with neither name raises SearchFieldError. A non-template Char or Boolean field always prepares. |
| Fields.SearchField.constructor | haystack/fields.py:12-21 | A new field has no instance name and keeps its arguments, with the subclass's forced default. |
| Fields.TemplateTakesPriority | haystack/fields.py:25-26 | With `use_template`, the model attribute and default are irrelevant: the template decides. |
| Fields.AttributeUsed | haystack/fields.py:27-33 | An attribute the object has is the value, or the result of calling it when callable. |
| Fields.DefaultUsed | haystack/fields.py:35 | Otherwise the default is the value, whatever the instance name. |
| Fields.TemplateNeedsAName | haystack/fields.py:45-46 | A template field with neither name fails with SearchFieldError for every kind. |
| Fields.TemplatePathComponents | haystack/fields.py:51 | The conventional path splits on `/` into `search`, `indexes`, the app label and `<module>_<instance>.txt`. |
| Fields.FallbackValues | haystack/fields.py:57-117 | Falling back to the forced default gives `''`, `0`, `False`, `''`, `''` and, for MultiValueField, the empty list. |
| Fields.IntegerFromText | haystack/fields.py:71-72 | An IntegerField over a numeric-text attribute prepares to that number. |
| Fields.CoerceIdempotent | haystack/fields.py:62-117 | Coercing an already coerced value changes nothing. |
| Fields.CharFieldIsText | haystack/fields.py:62-63 | A CharField fails only where the base preparation fails, and gives the value's text. |
| Fields.FreshFieldTemplate | haystack/fields.py:14-46 | A freshly built template field without a template name cannot prepare: SearchFieldError. |

## Left out

- Engine I/O is not modelled.
  - Whoosh: the file storage, index creation, writers and searchers, and `update`, `remove`, `clear`, `optimize` and `more_like_this`.
  - pysolr: the connection and its `add`/`delete`/`optimize` calls.
  - Stand-ins: Whoosh's hits and document count are parameters of `Search`, and so is Solr's answer (`RawResponse`).
  - The `os.makedirs` directory creation in `setup` is I/O and is not modelled.
- pysolr's `_from_python` is the parameter `fromPython` of the Solr parameter functions; its formatting is not modelled.
- Solr's `__init__` (the SOLR_URL check and the connection) and the batching in its `update` are not modelled, because their effect is the connection itself.
- Whoosh highlighting calls a foreign library. `WhooshBackend.ProcessResults` therefore never adds `highlighted`.
- The Whoosh `run` (the same option shaping as Solr's, without sort translation) is not modelled.
- Django's template loading and rendering are the `Renderer` parameter of `Fields.PrepareTemplate`. A missing template (TemplateDoesNotExist) is not modelled.
- `force_unicode` is not modelled.
- Floating point is left out: FloatField, and float or complex filter values. Numbers are unbounded integers.
- Python.Repr: strings are shown in single quotes without Python's escaping. It is used only where a list or non-string value is interpolated.
- Text.Split: whitespace is space, tab, newline, carriage return, vertical tab and form feed. Unicode whitespace is not treated as whitespace.
- Text.Lower: only ASCII letters are lowercased. The reserved words are ASCII.
- Python's dicts are sequences of pairs in iteration order: boosts, date facets, query facets and existing facets. SolrBackend.DateFacetParams requires distinct keys, as a dict has.
- The highlight entry of a Solr document is carried as an opaque value, not as a dict.
- Python `is True` / `is False` identity tests are equality with the boolean value: `multi_valued`, `indexed` and `highlight`.
- An attribute's callable is represented by the value its call returns, so exceptions raised inside the call are not modelled.
- SolrBackend.SolrQuery.Run: the construction of the query object (filters, models, ordering and facet settings) belongs to the base query class and is not modelled. The class takes those settings as constructor arguments and holds them as constants, because none of the modelled operations changes them. Only the stored results and hit count are mutable fields.
- A content atom whose value is the lone word `AND` or `OR` is dropped by the leading-chunk test, because the test looks at the chunk's text. The model reproduces this (`QueryCompiler.LeadingChunkTestIsOnText`, `SolrBackend.RunRaisesOnEmptyQuery`) rather than correcting it.
