/**
 * What both backends hand back from `search`: `SearchResult` records in a
 * response with a hit count and facet counts, or an empty list when the
 * query string is empty. Also the record handling the two `_process_results`
 * share: key lookup that raises KeyError, and the split of `django_ct_s`
 * into an app label and a model name.
 */
module Results {
  import opened Wrappers
  import opened Text
  import opened Python

  /** A stored document as the engine returns it: its fields by name. */
  type Record = map<string, PyValue>

  /** The bookkeeping keys every indexed document carries. */
  const ContentTypeKey := "django_ct_s"
  const ObjectIdKey := "django_id_s"

  /** A search hit: the model it belongs to, its primary key, its score and its other fields. */
  datatype SearchResult = SearchResult(
    appLabel: string,
    modelName: string,
    pk: PyValue,
    score: PyValue,
    fields: map<string, PyValue>)

  /**
   * The `facets` entry of a response: missing altogether, the empty dict, or
   * the three groups of counts (field facets already turned into term-to-count maps).
   */
  datatype Facets =
    | NoFacetsKey
    | EmptyFacets
    | Counted(fields: map<string, map<PyValue, PyValue>>, dates: map<string, PyValue>, queries: map<string, PyValue>)

  /** The response dict: `results`, `hits` and, usually, `facets`. */
  datatype Response = Response(results: seq<SearchResult>, hits: int, facets: Facets)

  /** What `search` returns: `[]` for an empty query string, else a response dict. */
  datatype Outcome = EmptyList | Answered(response: Response)

  /** `record[key]`. */
  function Lookup(r: Record, key: string): (v: Result<PyValue, Error>)
    ensures v.Success? <==> key in r
    ensures v.Success? ==> v.value == r[key]
    ensures v.Failure? ==> v.error == KeyError(key)
  {
    if key in r then Success(r[key]) else Failure(KeyError(key))
  }

  /** `app_label, model_name = value.split('.')`: exactly two pieces, else a ValueError. */
  function SplitContentType(v: PyValue): (r: Result<(string, string), Error>)
    ensures !v.PyStr? ==> r == Failure(AttributeError("split"))
    ensures r.Success? ==> '.' !in r.value.0 && '.' !in r.value.1
  {
    if !v.PyStr? then Failure(AttributeError("split"))
    else
      var ps := SplitOn(v.s, '.');
      if |ps| == 2 then Success((ps[0], ps[1]))
      else Failure(ValueError("wrong number of values to unpack"))
  }

  /** A content type written as `app.model` splits back into its two names. */
  lemma ContentTypeRoundTrip(app: string, model: string)
    requires '.' !in app && '.' !in model
    ensures SplitContentType(PyStr(app + "." + model)) == Success((app, model))
  {
    SplitOnFirst(app, model, '.');
    SplitOnNone(model, '.');
  }

  /** A split that succeeds found exactly one dot: the value is `app.model` with dot-free names. */
  lemma ContentTypeSplitJoins(v: PyValue)
    requires SplitContentType(v).Success?
    ensures var (app, model) := SplitContentType(v).value;
      v == PyStr(app + "." + model) && '.' !in app && '.' !in model
  {
    var ps := SplitOn(v.s, '.');
    SplitOnJoin(v.s, '.');
    assert Join(ps, ".") == ps[0] + "." + Join(ps[1..], ".");
    assert ps[1..] == [ps[1]];
  }

  /** The unpacking succeeds exactly on text that holds one dot; no dot, or more than one, is a ValueError. */
  lemma ContentTypeNeedsOneDot(s: string)
    ensures SplitContentType(PyStr(s)).Success? <==> multiset(s)['.'] == 1
    ensures SplitContentType(PyStr(s)).Failure? ==> SplitContentType(PyStr(s)).error == ValueError("wrong number of values to unpack")
  {
    SplitOnCount(s, '.');
  }

  /** In particular a dot-free name, and three dot-free names joined by dots, both fail. */
  lemma ContentTypeTwoDots(a: string, b: string, c: string)
    requires '.' !in a && '.' !in b && '.' !in c
    ensures SplitContentType(PyStr(a)).Failure?
    ensures SplitContentType(PyStr(a + "." + b + "." + c)).Failure?
  {
    SplitOnNone(a, '.');
    SplitOnFirst(a, b + "." + c, '.');
    SplitOnFirst(b, c, '.');
    SplitOnNone(c, '.');
    assert a + "." + b + "." + c == a + "." + (b + "." + c);
  }
}
