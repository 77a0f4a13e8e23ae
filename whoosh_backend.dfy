/**
 * The Whoosh `SearchBackend` without its storage: lowering the unified
 * field list into a Whoosh schema, the lazy `setup`, the guards `search`
 * applies before it asks the index, and the record shaping of
 * `_process_results`. The index itself (document count, searcher, parser)
 * is outside the model: its answers are parameters.
 */
module WhooshBackend {
  import opened Wrappers
  import opened Text
  import opened Python
  import opened Results

  /** One entry of the unified schema; `indexed` and `multi_valued` are tested by identity with False/True. */
  datatype FieldSpec = FieldSpec(fieldName: string, fieldType: string, indexed: PyValue, multiValued: PyValue)

  /** The Whoosh field types the backend uses; all of them are stored, keywords are comma-separated. */
  datatype WhooshField = IdField(unique: bool) | StoredField | KeywordField | TextField

  type Schema = map<string, WhooshField>

  /** The three fields every schema starts with. */
  const BaseSchema: Schema := map["id" := IdField(true), "django_ct_s" := IdField(false), "django_id_s" := IdField(false)]

  /** The field types lowered to an ID (or a stored-only) field. */
  predicate IsScalarType(t: string) {
    t == "slong" || t == "sfloat" || t == "boolean" || t == "date"
  }

  /** The schema entry of one field, or the SearchBackendError for a type Whoosh does not support. */
  function SchemaField(f: FieldSpec): (r: Result<WhooshField, Error>)
    ensures r.Failure? <==> f.multiValued != PyBool(true) && !IsScalarType(f.fieldType) && f.fieldType != "text"
    ensures r.Failure? ==> r.error == SearchBackendError(UnsupportedFieldType(f.fieldType))
    ensures r.Success? && f.multiValued == PyBool(true) ==> r.value == KeywordField
    ensures r.Success? && r.value.IdField? ==> !r.value.unique
  {
    if f.multiValued == PyBool(true) then Success(KeywordField)
    else if IsScalarType(f.fieldType) then Success(if f.indexed == PyBool(false) then StoredField else IdField(false))
    else if f.fieldType == "text" then Success(TextField)
    else Failure(SearchBackendError(UnsupportedFieldType(f.fieldType)))
  }

  /** The schema of a field list: the base fields, then each field in order (a later name overwrites). */
  function SchemaOf(fields: seq<FieldSpec>): Result<Schema, Error> {
    if fields == [] then Success(BaseSchema)
    else
      var m :- SchemaOf(fields[..|fields| - 1]);
      var w :- SchemaField(fields[|fields| - 1]);
      Success(m[fields[|fields| - 1].fieldName := w])
  }

  /** `build_schema`: fill the field dict in one pass over the field list. */
  method BuildSchema(fields: seq<FieldSpec>) returns (r: Result<Schema, Error>)
    ensures r == SchemaOf(fields)
  {
    var schemaFields := BaseSchema;
    var i := 0;
    while i < |fields|
      invariant 0 <= i <= |fields|
      invariant SchemaOf(fields[..i]) == Success(schemaFields)
    {
      var field := fields[i];
      assert fields[..i + 1][..i] == fields[..i];
      if field.multiValued == PyBool(true) {
        schemaFields := schemaFields[field.fieldName := KeywordField];
      } else if IsScalarType(field.fieldType) {
        if field.indexed == PyBool(false) {
          schemaFields := schemaFields[field.fieldName := StoredField];
        } else {
          schemaFields := schemaFields[field.fieldName := IdField(false)];
        }
      } else if field.fieldType == "text" {
        schemaFields := schemaFields[field.fieldName := TextField];
      } else {
        SchemaFailsAt(fields, i);
        return Failure(SearchBackendError(UnsupportedFieldType(field.fieldType)));
      }
      i := i + 1;
    }
    assert fields[..i] == fields;
    return Success(schemaFields);
  }

  /** The first unsupported field decides the error, whatever follows it. */
  lemma {:induction false} SchemaFailsAt(fields: seq<FieldSpec>, i: nat)
    requires i < |fields|
    requires SchemaOf(fields[..i]).Success?
    requires SchemaField(fields[i]).Failure?
    ensures SchemaOf(fields) == Failure(SchemaField(fields[i]).error)
    decreases |fields|
  {
    var n := |fields|;
    if i == n - 1 {
      assert fields[..n - 1] == fields[..i];
    } else {
      assert fields[..n - 1][..i] == fields[..i];
      assert fields[..n - 1][i] == fields[i];
      SchemaFailsAt(fields[..n - 1], i);
    }
  }

  /** Lowering fails exactly when some field has an unsupported type. */
  lemma {:induction false} SchemaFailsIff(fields: seq<FieldSpec>)
    ensures SchemaOf(fields).Failure? <==> exists k :: 0 <= k < |fields| && SchemaField(fields[k]).Failure?
  {
    if fields != [] {
      var init := fields[..|fields| - 1];
      SchemaFailsIff(init);
      assert forall k :: 0 <= k < |init| ==> init[k] == fields[k];
    }
  }

  /** The schema holds the three base fields and exactly the names of the listed fields besides. */
  lemma {:induction false} SchemaKeys(fields: seq<FieldSpec>)
    requires SchemaOf(fields).Success?
    ensures SchemaOf(fields).value.Keys == BaseSchema.Keys + set k | 0 <= k < |fields| :: fields[k].fieldName
    ensures "id" in SchemaOf(fields).value && "django_ct_s" in SchemaOf(fields).value && "django_id_s" in SchemaOf(fields).value
  {
    if fields != [] {
      var n := |fields|;
      var init := fields[..n - 1];
      SchemaKeys(init);
      assert forall k :: 0 <= k < n - 1 ==> init[k] == fields[k];
      assert (set k | 0 <= k < n :: fields[k].fieldName) ==
             (set k | 0 <= k < n - 1 :: init[k].fieldName) + {fields[n - 1].fieldName};
    }
  }

  /** A field's entry is what its own type lowers to, provided no later field has the same name. */
  lemma {:induction false} SchemaLookup(fields: seq<FieldSpec>, i: nat)
    requires i < |fields| && SchemaOf(fields).Success?
    requires forall j :: i < j < |fields| ==> fields[j].fieldName != fields[i].fieldName
    ensures SchemaField(fields[i]).Success?
    ensures fields[i].fieldName in SchemaOf(fields).value
    ensures SchemaOf(fields).value[fields[i].fieldName] == SchemaField(fields[i]).value
  {
    var n := |fields|;
    if i < n - 1 {
      var init := fields[..n - 1];
      assert init[i] == fields[i];
      assert forall j :: i < j < |init| ==> init[j] == fields[j];
      SchemaLookup(init, i);
    }
  }

  /** A base field keeps its definition unless a listed field reuses its name. */
  lemma {:induction false} SchemaBaseKept(fields: seq<FieldSpec>, name: string)
    requires name in BaseSchema && SchemaOf(fields).Success?
    requires forall j :: 0 <= j < |fields| ==> fields[j].fieldName != name
    ensures name in SchemaOf(fields).value && SchemaOf(fields).value[name] == BaseSchema[name]
  {
    if fields != [] {
      var init := fields[..|fields| - 1];
      assert forall j :: 0 <= j < |init| ==> init[j] == fields[j];
      SchemaBaseKept(init, name);
    }
  }

  /* ---------------- the sort guard ---------------- */

  /** A sort entry asking for descending order. */
  predicate Descending(s: string) {
    "-" <= s
  }

  /** Whether to reverse; reversing is all-or-nothing, so a `-` entry among several is refused. */
  function ReverseOf(sortBy: seq<string>): Result<bool, Error> {
    if exists k :: 0 <= k < |sortBy| && Descending(sortBy[k]) then
      (if |sortBy| > 1 then Failure(SearchBackendError(MultipleReverseSort)) else Success(true))
    else Success(false)
  }

  /** The loop of `search` over the sort entries. */
  method ReverseFlag(sortBy: seq<string>) returns (r: Result<bool, Error>)
    ensures r == ReverseOf(sortBy)
  {
    var reverse := false;
    var i := 0;
    while i < |sortBy|
      invariant 0 <= i <= |sortBy|
      invariant reverse <==> exists k :: 0 <= k < i && Descending(sortBy[k])
      invariant reverse ==> |sortBy| <= 1
    {
      if Descending(sortBy[i]) {
        if |sortBy| > 1 {
          return Failure(SearchBackendError(MultipleReverseSort));
        }
        reverse := true;
      }
      i := i + 1;
    }
    return Success(reverse);
  }

  /** One entry: reverse exactly when it is descending. Several entries: never reversed; refused if any is descending. */
  lemma ReverseCases(sortBy: seq<string>)
    ensures |sortBy| == 1 ==> ReverseOf(sortBy) == Success(Descending(sortBy[0]))
    ensures ReverseOf(sortBy) == Success(true) ==> |sortBy| == 1 && Descending(sortBy[0])
    ensures |sortBy| > 1 ==> (ReverseOf(sortBy).Failure? <==> exists k :: 0 <= k < |sortBy| && Descending(sortBy[k]))
    ensures (forall k :: 0 <= k < |sortBy| ==> !Descending(sortBy[k])) ==> ReverseOf(sortBy) == Success(false)
  {
  }

  /* ---------------- result shaping ---------------- */

  /** One raw hit: split its content type, drop the two bookkeeping keys; `score` defaults to 0 and stays a field. */
  function ResultOf(raw: Record): Result<SearchResult, Error> {
    var ct :- Lookup(raw, ContentTypeKey);
    var names :- SplitContentType(ct);
    var pk :- Lookup(raw, ObjectIdKey);
    var score := if "score" in raw then raw["score"] else PyInt(0);
    Success(SearchResult(names.0, names.1, pk, score, raw - {ContentTypeKey, ObjectIdKey}))
  }

  function ResultsOf(raws: seq<Record>): (r: Result<seq<SearchResult>, Error>)
    ensures r.Success? ==> |r.value| == |raws|
  {
    if raws == [] then Success([])
    else
      var init :- ResultsOf(raws[..|raws| - 1]);
      var last :- ResultOf(raws[|raws| - 1]);
      Success(init + [last])
  }

  /** The response built from the hits: one result per hit, `hits` their number, facets the empty dict. */
  function ResponseOf(raws: seq<Record>): Result<Response, Error> {
    var rs :- ResultsOf(raws);
    Success(Response(rs, |rs|, EmptyFacets))
  }

  lemma {:induction false} ResultsFailAt(raws: seq<Record>, i: nat)
    requires i < |raws|
    requires ResultsOf(raws[..i]).Success?
    requires ResultOf(raws[i]).Failure?
    ensures ResultsOf(raws) == Failure(ResultOf(raws[i]).error)
    decreases |raws|
  {
    var n := |raws|;
    if i == n - 1 {
      assert raws[..n - 1] == raws[..i];
    } else {
      assert raws[..n - 1][..i] == raws[..i];
      assert raws[..n - 1][i] == raws[i];
      ResultsFailAt(raws[..n - 1], i);
    }
  }

  /** `_process_results`: append one result per hit. */
  method ProcessResults(raws: seq<Record>) returns (r: Result<Response, Error>)
    ensures r == ResponseOf(raws)
  {
    var results: seq<SearchResult> := [];
    var i := 0;
    while i < |raws|
      invariant 0 <= i <= |raws|
      invariant ResultsOf(raws[..i]) == Success(results)
    {
      assert raws[..i + 1][..i] == raws[..i];
      var res := ResultOf(raws[i]);
      if res.Failure? {
        ResultsFailAt(raws, i);
        return Failure(res.error);
      }
      results := results + [res.value];
      i := i + 1;
    }
    assert raws[..i] == raws;
    return Success(Response(results, |results|, EmptyFacets));
  }

  /**
   * A processed hit keeps every field but the two bookkeeping keys, with
   * its value; its names recombine to the content type.
   */
  lemma ResultFields(raw: Record)
    requires ResultOf(raw).Success?
    ensures var r := ResultOf(raw).value;
      && r.fields.Keys == raw.Keys - {ContentTypeKey, ObjectIdKey}
      && (forall k :: k in r.fields ==> r.fields[k] == raw[k])
      && r.pk == raw[ObjectIdKey]
      && r.score == (if "score" in raw then raw["score"] else PyInt(0))
      && raw[ContentTypeKey] == PyStr(r.appLabel + "." + r.modelName)
  {
    ContentTypeSplitJoins(raw[ContentTypeKey]);
  }

  /** A hit is refused with KeyError when a bookkeeping key is missing. */
  lemma ResultNeedsKeys(raw: Record)
    ensures ContentTypeKey !in raw ==> ResultOf(raw) == Failure(KeyError(ContentTypeKey))
    ensures ContentTypeKey in raw && SplitContentType(raw[ContentTypeKey]).Success? && ObjectIdKey !in raw ==>
      ResultOf(raw) == Failure(KeyError(ObjectIdKey))
  {
  }

  /** The hits count the processed results. */
  lemma HitsCountResults(raws: seq<Record>)
    requires ResponseOf(raws).Success?
    ensures ResponseOf(raws).value.hits == |ResponseOf(raws).value.results| == |raws|
  {
  }

  /* ---------------- the backend object ---------------- */

  /** The query the backend hands to the Whoosh searcher. */
  datatype SearcherCall = SearcherCall(query: string, sortBy: Option<seq<string>>, reverse: bool)

  /** What `search` does once setup is complete. */
  function SearchOf(queryString: string, sortBy: Option<seq<string>>, docCount: nat, hits: seq<Record>): Result<Outcome, Error> {
    if |queryString| == 0 then Success(EmptyList)
    else
      var reverse :- if sortBy.Some? then ReverseOf(sortBy.value) else Success(false);
      if docCount == 0 then Success(Answered(Response([], 0, NoFacetsKey)))
      else
        var resp :- ResponseOf(hits);
        Success(Answered(resp))
  }

  /** The searcher call `search` makes, if it gets that far. */
  function SearcherCallOf(queryString: string, sortBy: Option<seq<string>>, docCount: nat): Option<SearcherCall> {
    if |queryString| == 0 || docCount == 0 then None
    else
      var reverse := if sortBy.Some? then ReverseOf(sortBy.value) else Success(false);
      if reverse.Failure? then None else Some(SearcherCall(queryString, sortBy, reverse.value))
  }

  class WhooshBackend {
    const whooshPath: string
    var setupComplete: bool
    var contentFieldName: string
    var schema: Schema

    constructor (path: string)
      ensures whooshPath == path && !setupComplete
    {
      whooshPath := path;
      setupComplete := false;
      contentFieldName := "";
      schema := BaseSchema;
    }

    /** `SearchBackend()`: refuses to start without the WHOOSH_PATH setting. */
    static method Create(setting: Option<string>) returns (r: Result<WhooshBackend, Error>)
      ensures setting.None? ==> r == Failure(ImproperlyConfigured("WHOOSH_PATH"))
      ensures setting.Some? ==> r.Success? && fresh(r.value) && r.value.whooshPath == setting.value && !r.value.setupComplete
    {
      if setting.None? {
        return Failure(ImproperlyConfigured("WHOOSH_PATH"));
      }
      var b := new WhooshBackend(setting.value);
      return Success(b);
    }

    /**
     * `setup`, given the site's unified schema (content field name and field
     * list): it records the content field, builds the schema and only then
     * marks setup complete; an unsupported field type leaves it incomplete.
     */
    method Setup(contentField: string, fields: seq<FieldSpec>) returns (err: Option<Error>)
      modifies this
      ensures contentFieldName == contentField
      ensures SchemaOf(fields).Success? ==> err.None? && setupComplete && schema == SchemaOf(fields).value
      ensures SchemaOf(fields).Failure? ==>
        err == Some(SchemaOf(fields).error) && setupComplete == old(setupComplete) && schema == old(schema)
    {
      contentFieldName := contentField;
      var s := BuildSchema(fields);
      if s.Failure? {
        return Some(s.error);
      }
      schema := s.value;
      setupComplete := true;
      return None;
    }

    /**
     * `search`: set up on first use, then the empty-query guard, the sort
     * guard, the empty-index answer, and the processing of the searcher's
     * hits. `docCount` and `hits` are what the index answers.
     */
    method Search(queryString: string, sortBy: Option<seq<string>>, contentField: string, fields: seq<FieldSpec>,
                  docCount: nat, hits: seq<Record>)
      returns (r: Result<Outcome, Error>, call: Option<SearcherCall>)
      modifies this
      ensures old(setupComplete) ==> unchanged(this)
      ensures !old(setupComplete) ==> contentFieldName == contentField
      ensures !old(setupComplete) && SchemaOf(fields).Failure? ==>
        r == Failure(SchemaOf(fields).error) && call.None? && !setupComplete
      ensures old(setupComplete) || SchemaOf(fields).Success? ==>
        setupComplete
        && (!old(setupComplete) ==> schema == SchemaOf(fields).value)
        && r == SearchOf(queryString, sortBy, docCount, hits)
        && call == SearcherCallOf(queryString, sortBy, docCount)
    {
      call := None;
      if !setupComplete {
        var err := Setup(contentField, fields);
        if err.Some? {
          return Failure(err.value), None;
        }
      }
      if |queryString| == 0 {
        return Success(EmptyList), None;
      }
      var reverse := false;
      if sortBy.Some? {
        var rev := ReverseFlag(sortBy.value);
        if rev.Failure? {
          return Failure(rev.error), None;
        }
        reverse := rev.value;
      }
      if docCount == 0 {
        return Success(Answered(Response([], 0, NoFacetsKey))), None;
      }
      call := Some(SearcherCall(queryString, sortBy, reverse));
      var resp := ProcessResults(hits);
      if resp.Failure? {
        return Failure(resp.error), call;
      }
      return Success(Answered(resp.value)), call;
    }
  }

  /** The guards in order: an empty query is answered before the sort is checked, and nothing is searched. */
  lemma SearchGuards(queryString: string, sortBy: Option<seq<string>>, docCount: nat, hits: seq<Record>)
    ensures |queryString| == 0 ==> SearchOf(queryString, sortBy, docCount, hits) == Success(EmptyList)
    ensures |queryString| > 0 && sortBy.Some? && |sortBy.value| > 1 && (exists k :: 0 <= k < |sortBy.value| && Descending(sortBy.value[k])) ==>
      SearchOf(queryString, sortBy, docCount, hits) == Failure(SearchBackendError(MultipleReverseSort))
    ensures |queryString| > 0 && sortBy.Some? && ReverseOf(sortBy.value).Success? && docCount == 0 ==>
      SearchOf(queryString, sortBy, docCount, hits) == Success(Answered(Response([], 0, NoFacetsKey)))
    ensures SearcherCallOf(queryString, sortBy, docCount).Some? ==>
      SearcherCallOf(queryString, sortBy, docCount).value.reverse ==
        (sortBy.Some? && |sortBy.value| == 1 && Descending(sortBy.value[0]))
  {
    if sortBy.Some? {
      ReverseCases(sortBy.value);
    }
  }
}
