/**
 * The Solr backend without its connection: how `SearchQuery.run` shapes the
 * options it passes to `search`, the request-parameter map `search` builds
 * for pysolr, and how `_process_results` turns pysolr's answer into a
 * response. The connection's answer and pysolr's value formatting
 * (`_from_python`) are parameters.
 */
module SolrBackend {
  import opened Wrappers
  import opened Text
  import opened Python
  import opened Results
  import opened QueryCompiler

  /* ---------------- run: sort and offsets ---------------- */

  /** One `order_by` entry as a Solr sort clause: `-f` is `f desc`, anything else `f asc`. */
  function SortClause(f: string): string {
    if "-" <= f then f[1..] + " desc" else f + " asc"
  }

  /** The sort parameter: the clauses in order, joined with `, `. */
  function SortSpec(orderBy: seq<string>): string {
    Join(seq(|orderBy|, k requires 0 <= k < |orderBy| => SortClause(orderBy[k])), ", ")
  }

  /** Reads a sort clause back as an `order_by` entry. */
  function OrderEntry(c: string): string {
    if |c| >= 5 && c[|c| - 5..] == " desc" then "-" + c[..|c| - 5]
    else if |c| >= 4 && c[|c| - 4..] == " asc" then c[..|c| - 4]
    else c
  }

  /** Translating an entry loses nothing: the direction and the field name come back. */
  lemma SortClauseRoundTrip(f: string)
    ensures OrderEntry(SortClause(f)) == f
  {
    var c := SortClause(f);
    if "-" <= f {
      assert c[|c| - 5..] == " desc";
      assert c[..|c| - 5] == f[1..];
      assert "-" + f[1..] == f;
    } else {
      assert !(|c| >= 5 && c[|c| - 5..] == " desc") by {
        if |c| >= 5 {
          assert c[|c| - 5..][1] == c[|c| - 4] == ' ';
          assert " desc"[1] == 'd';
        }
      }
      assert c[|c| - 4..] == " asc";
      assert c[..|c| - 4] == f;
    }
  }

  /**
   * The keyword arguments `search` accepts. A `None` option is an explicit
   * `None` argument: `search`'s own default for `start_offset` is 0, which is
   * `Some(0)` here, while `None` leaves `start` out.
   */
  datatype SearchArgs = SearchArgs(
    sortBy: Option<string>,
    startOffset: Option<int>,
    endOffset: Option<int>,
    fields: string,
    highlight: PyValue,
    facets: Option<seq<string>>,
    dateFacets: Option<seq<(string, Record)>>,
    queryFacets: Option<seq<(string, PyValue)>>,
    existingFacets: Option<seq<(string, PyValue)>>)

  /** The options `run` passes: non-empty settings only, the end offset as a row count. */
  function RunArgsOf(orderBy: seq<string>, startOffset: int, endOffset: Option<int>, highlight: PyValue,
                     facets: seq<string>, dateFacets: seq<(string, Record)>,
                     queryFacets: seq<(string, PyValue)>, existingFacets: seq<(string, PyValue)>): SearchArgs
  {
    SearchArgs(
      if |orderBy| > 0 then Some(SortSpec(orderBy)) else None,
      Some(startOffset),
      if endOffset.Some? then Some(endOffset.value - startOffset) else None,
      "",
      if Truthy(highlight) then highlight else PyBool(false),
      if |facets| > 0 then Some(facets) else None,
      if |dateFacets| > 0 then Some(dateFacets) else None,
      if |queryFacets| > 0 then Some(queryFacets) else None,
      if |existingFacets| > 0 then Some(existingFacets) else None)
  }

  /** The sort loop of `run`: one clause per entry, in order. */
  method SortClauses(orderBy: seq<string>) returns (orderByList: seq<string>)
    ensures orderByList == seq(|orderBy|, k requires 0 <= k < |orderBy| => SortClause(orderBy[k]))
  {
    orderByList := [];
    var i := 0;
    while i < |orderBy|
      invariant 0 <= i <= |orderBy|
      invariant orderByList == seq(i, k requires 0 <= k < i => SortClause(orderBy[k]))
    {
      var entry := orderBy[i];
      if "-" <= entry {
        orderByList := orderByList + [entry[1..] + " desc"];
      } else {
        orderByList := orderByList + [entry + " asc"];
      }
      i := i + 1;
    }
  }

  /** The option shaping of `run`. */
  method RunOptions(orderBy: seq<string>, startOffset: int, endOffset: Option<int>, highlight: PyValue,
                    facets: seq<string>, dateFacets: seq<(string, Record)>,
                    queryFacets: seq<(string, PyValue)>, existingFacets: seq<(string, PyValue)>)
    returns (args: SearchArgs)
    ensures args == RunArgsOf(orderBy, startOffset, endOffset, highlight, facets, dateFacets, queryFacets, existingFacets)
  {
    var sortBy: Option<string> := None;
    if |orderBy| > 0 {
      var orderByList := SortClauses(orderBy);
      sortBy := Some(Join(orderByList, ", "));
    }
    var rows: Option<int> := None;
    if endOffset.Some? {
      rows := Some(endOffset.value - startOffset);
    }
    var hl := PyBool(false);
    if Truthy(highlight) {
      hl := highlight;
    }
    var ff: Option<seq<string>> := None;
    if |facets| > 0 {
      ff := Some(facets);
    }
    var df: Option<seq<(string, Record)>> := None;
    if |dateFacets| > 0 {
      df := Some(dateFacets);
    }
    var qf: Option<seq<(string, PyValue)>> := None;
    if |queryFacets| > 0 {
      qf := Some(queryFacets);
    }
    var ef: Option<seq<(string, PyValue)>> := None;
    if |existingFacets| > 0 {
      ef := Some(existingFacets);
    }
    args := SearchArgs(sortBy, Some(startOffset), rows, "", hl, ff, df, qf, ef);
  }

  /** Start and row count cover exactly the requested slice; the sort keeps one clause per entry, in order. */
  lemma RunOffsetsAndSort(orderBy: seq<string>, startOffset: int, endOffset: Option<int>, highlight: PyValue,
                          facets: seq<string>, dateFacets: seq<(string, Record)>,
                          queryFacets: seq<(string, PyValue)>, existingFacets: seq<(string, PyValue)>)
    ensures var a := RunArgsOf(orderBy, startOffset, endOffset, highlight, facets, dateFacets, queryFacets, existingFacets);
      && a.startOffset == Some(startOffset)
      && (a.endOffset.Some? <==> endOffset.Some?)
      && (endOffset.Some? ==> a.startOffset.value + a.endOffset.value == endOffset.value)
      && (a.sortBy.Some? <==> |orderBy| > 0)
      && (|orderBy| == 1 ==> a.sortBy == Some(SortClause(orderBy[0])))
      && (|orderBy| > 1 ==> a.sortBy == Some(SortClause(orderBy[0]) + ", " + SortSpec(orderBy[1..])))
  {
    if |orderBy| > 1 {
      var cs := seq(|orderBy|, k requires 0 <= k < |orderBy| => SortClause(orderBy[k]));
      assert cs[1..] == seq(|orderBy[1..]|, k requires 0 <= k < |orderBy[1..]| => SortClause(orderBy[1..][k]));
    }
  }

  /* ---------------- search: the parameter map ---------------- */

  /** A pysolr keyword argument value. */
  datatype Param = PText(s: string) | PNumber(n: int) | PList(items: seq<string>) | PValue(v: PyValue)

  type Params = map<string, Param>

  /** `d.get(key)`. */
  function Get(d: Record, key: string): PyValue {
    if key in d then d[key] else PyNone
  }

  /** `["%s:%s" % (field, value) for field, value in d.items()]`. */
  function FieldValues(d: seq<(string, PyValue)>): seq<string> {
    seq(|d|, k requires 0 <= k < |d| => d[k].0 + ":" + ToStr(d[k].1))
  }

  function Keys(d: seq<(string, Record)>): seq<string> {
    seq(|d|, k requires 0 <= k < |d| => d[k].0)
  }

  const StartSuffix := ".facet.date.start"
  const EndSuffix := ".facet.date.end"
  const GapSuffix := ".facet.date.gap"

  /** The per-field date-facet parameter name `f.<key><suffix>`. */
  function DateKey(key: string, suffix: string): string {
    "f." + key + suffix
  }

  /** The three per-field parameters of each date facet, the facets taken in order. */
  function DateParams(m: Params, dfs: seq<(string, Record)>, fromPython: PyValue -> string): Params
    decreases |dfs|
  {
    if dfs == [] then m
    else
      var key := dfs[|dfs| - 1].0;
      var value := dfs[|dfs| - 1].1;
      DateParams(m, dfs[..|dfs| - 1], fromPython)
        [DateKey(key, StartSuffix) := PText(fromPython(Get(value, "start_date")))]
        [DateKey(key, EndSuffix) := PText(fromPython(Get(value, "end_date")))]
        [DateKey(key, GapSuffix) := PValue(Get(value, "gap"))]
  }

  /** The field list, paging, sorting and highlighting parameters. */
  function ResultParams(a: SearchArgs): Params {
    var m0 := map["fl" := PText(if a.fields != "" then a.fields else "* score")];
    var m1 := if a.sortBy.Some? then m0["sort" := PText(a.sortBy.value)] else m0;
    var m2 := if a.startOffset.Some? then m1["start" := PNumber(a.startOffset.value)] else m1;
    var m3 := if a.endOffset.Some? then m2["rows" := PNumber(a.endOffset.value)] else m2;
    if a.highlight == PyBool(true) then m3["hl" := PText("true")]["hl.fragsize" := PText("200")] else m3
  }

  /** The parameters before the date facets' per-field entries. */
  function BaseParams(a: SearchArgs): Params {
    var m4 := ResultParams(a);
    var m5 := if a.facets.Some? then m4["facet" := PText("on")]["facet.field" := PList(a.facets.value)] else m4;
    if a.dateFacets.Some? then m5["facet" := PText("on")]["facet.date" := PList(Keys(a.dateFacets.value))] else m5
  }

  /** The parameter map `search` sends. */
  function ParamsOf(a: SearchArgs, fromPython: PyValue -> string): Params {
    var m6 := if a.dateFacets.Some? then DateParams(BaseParams(a), a.dateFacets.value, fromPython) else BaseParams(a);
    var m7 := if a.queryFacets.Some? then m6["facet" := PText("on")]["facet.query" := PList(FieldValues(a.queryFacets.value))] else m6;
    if a.existingFacets.Some? then m7["facet" := PText("on")]["fq" := PList(FieldValues(a.existingFacets.value))] else m7
  }

  /** The date-facet loop of `search`. */
  method AddDateParams(m: Params, dfs: seq<(string, Record)>, fromPython: PyValue -> string) returns (kwargs: Params)
    ensures kwargs == DateParams(m, dfs, fromPython)
  {
    kwargs := m;
    var i := 0;
    while i < |dfs|
      invariant 0 <= i <= |dfs|
      invariant kwargs == DateParams(m, dfs[..i], fromPython)
    {
      assert dfs[..i + 1][..i] == dfs[..i];
      var key := dfs[i].0;
      var value := dfs[i].1;
      kwargs := kwargs[DateKey(key, StartSuffix) := PText(fromPython(Get(value, "start_date")))];
      kwargs := kwargs[DateKey(key, EndSuffix) := PText(fromPython(Get(value, "end_date")))];
      kwargs := kwargs[DateKey(key, GapSuffix) := PValue(Get(value, "gap"))];
      i := i + 1;
    }
    assert dfs[..i] == dfs;
  }

  /** `search`'s keyword map, filled in condition by condition. */
  method SearchParams(a: SearchArgs, fromPython: PyValue -> string) returns (kwargs: Params)
    ensures kwargs == ParamsOf(a, fromPython)
  {
    kwargs := map["fl" := PText("* score")];
    if a.fields != "" {
      kwargs := kwargs["fl" := PText(a.fields)];
    }
    if a.sortBy.Some? {
      kwargs := kwargs["sort" := PText(a.sortBy.value)];
    }
    if a.startOffset.Some? {
      kwargs := kwargs["start" := PNumber(a.startOffset.value)];
    }
    if a.endOffset.Some? {
      kwargs := kwargs["rows" := PNumber(a.endOffset.value)];
    }
    if a.highlight == PyBool(true) {
      kwargs := kwargs["hl" := PText("true")];
      kwargs := kwargs["hl.fragsize" := PText("200")];
    }
    assert kwargs == ResultParams(a);
    if a.facets.Some? {
      kwargs := kwargs["facet" := PText("on")];
      kwargs := kwargs["facet.field" := PList(a.facets.value)];
    }
    if a.dateFacets.Some? {
      kwargs := kwargs["facet" := PText("on")];
      kwargs := kwargs["facet.date" := PList(Keys(a.dateFacets.value))];
      assert kwargs == BaseParams(a);
      kwargs := AddDateParams(kwargs, a.dateFacets.value, fromPython);
    } else {
      assert kwargs == BaseParams(a);
    }
    if a.queryFacets.Some? {
      kwargs := kwargs["facet" := PText("on")];
      kwargs := kwargs["facet.query" := PList(FieldValues(a.queryFacets.value))];
    }
    if a.existingFacets.Some? {
      kwargs := kwargs["facet" := PText("on")];
      kwargs := kwargs["fq" := PList(FieldValues(a.existingFacets.value))];
    }
  }

  /** The date facets' entries are all named `f.<key>...`, so they leave every other parameter alone. */
  lemma {:induction false} DateParamsKeep(m: Params, dfs: seq<(string, Record)>, fromPython: PyValue -> string, k: string)
    requires |k| < 2 || k[1] != '.'
    ensures k in DateParams(m, dfs, fromPython) <==> k in m
    ensures k in m ==> DateParams(m, dfs, fromPython)[k] == m[k]
    decreases |dfs|
  {
    if dfs != [] {
      var key := dfs[|dfs| - 1].0;
      assert DateKey(key, StartSuffix)[1] == '.' && DateKey(key, EndSuffix)[1] == '.' && DateKey(key, GapSuffix)[1] == '.';
      DateParamsKeep(m, dfs[..|dfs| - 1], fromPython, k);
    }
  }

  /** The parameters the facet options do not set are those of `ResultParams`. */
  lemma BaseKeep(a: SearchArgs, k: string)
    requires k != "facet" && k != "facet.field" && k != "facet.date"
    ensures k in BaseParams(a) <==> k in ResultParams(a)
    ensures k in ResultParams(a) ==> BaseParams(a)[k] == ResultParams(a)[k]
  {
  }

  /** The parameters neither the date facets nor the later facet options set are those of `BaseParams`. */
  lemma ParamsKeep(a: SearchArgs, fromPython: PyValue -> string, k: string)
    requires k != "facet" && k != "facet.query" && k != "fq"
    requires |k| < 2 || k[1] != '.'
    ensures k in ParamsOf(a, fromPython) <==> k in BaseParams(a)
    ensures k in BaseParams(a) ==> ParamsOf(a, fromPython)[k] == BaseParams(a)[k]
  {
    if a.dateFacets.Some? {
      DateParamsKeep(BaseParams(a), a.dateFacets.value, fromPython, k);
    }
  }

  /** `fl` is `* score` unless a field list is given. */
  lemma FieldListParam(a: SearchArgs, fromPython: PyValue -> string)
    ensures "fl" in ParamsOf(a, fromPython)
    ensures ParamsOf(a, fromPython)["fl"] == PText(if a.fields != "" then a.fields else "* score")
  {
    ParamsKeep(a, fromPython, "fl");
    BaseKeep(a, "fl");
  }

  /** Faceting is switched on exactly when one of the four facet options is given. */
  lemma FacetSwitch(a: SearchArgs, fromPython: PyValue -> string)
    ensures "facet" in ParamsOf(a, fromPython) <==>
      a.facets.Some? || a.dateFacets.Some? || a.queryFacets.Some? || a.existingFacets.Some?
    ensures "facet" in ParamsOf(a, fromPython) ==> ParamsOf(a, fromPython)["facet"] == PText("on")
  {
    if a.dateFacets.Some? {
      DateParamsKeep(BaseParams(a), a.dateFacets.value, fromPython, "facet");
    }
  }

  /** Query facets and existing facets are sent as lists of `field:value`; field facets as given. */
  lemma FacetListParams(a: SearchArgs, fromPython: PyValue -> string)
    ensures a.queryFacets.Some? ==>
      "facet.query" in ParamsOf(a, fromPython) && ParamsOf(a, fromPython)["facet.query"] == PList(FieldValues(a.queryFacets.value))
    ensures a.existingFacets.Some? ==>
      "fq" in ParamsOf(a, fromPython) && ParamsOf(a, fromPython)["fq"] == PList(FieldValues(a.existingFacets.value))
    ensures a.facets.Some? ==>
      "facet.field" in ParamsOf(a, fromPython) && ParamsOf(a, fromPython)["facet.field"] == PList(a.facets.value)
    ensures a.existingFacets.None? ==> "fq" !in ParamsOf(a, fromPython)
  {
    if a.dateFacets.Some? {
      DateParamsKeep(BaseParams(a), a.dateFacets.value, fromPython, "facet.field");
      DateParamsKeep(BaseParams(a), a.dateFacets.value, fromPython, "fq");
    }
  }

  /** Paging, sorting and highlighting parameters are sent exactly when asked for. */
  lemma PagingParams(a: SearchArgs, fromPython: PyValue -> string)
    ensures ("sort" in ParamsOf(a, fromPython) <==> a.sortBy.Some?)
    ensures a.sortBy.Some? ==> ParamsOf(a, fromPython)["sort"] == PText(a.sortBy.value)
    ensures ("rows" in ParamsOf(a, fromPython) <==> a.endOffset.Some?)
    ensures a.endOffset.Some? ==> ParamsOf(a, fromPython)["rows"] == PNumber(a.endOffset.value)
    ensures ("hl" in ParamsOf(a, fromPython) <==> a.highlight == PyBool(true))
  {
    ParamsKeep(a, fromPython, "sort");
    BaseKeep(a, "sort");
    ParamsKeep(a, fromPython, "rows");
    BaseKeep(a, "rows");
    ParamsKeep(a, fromPython, "hl");
    BaseKeep(a, "hl");
  }

  /** Two date-facet parameter names agree only for the same facet key and the same suffix. */
  lemma DateKeyInjective(k1: string, s1: string, k2: string, s2: string)
    requires s1 in {StartSuffix, EndSuffix, GapSuffix} && s2 in {StartSuffix, EndSuffix, GapSuffix}
    requires DateKey(k1, s1) == DateKey(k2, s2)
    ensures k1 == k2 && s1 == s2
  {
    var d1 := DateKey(k1, s1);
    assert d1[|d1| - 1] == s1[|s1| - 1];
    assert d1[|d1| - 1] == s2[|s2| - 1];
    assert s1 == s2;
    assert |k1| == |k2|;
    assert d1[2..2 + |k1|] == k1;
    assert DateKey(k2, s2)[2..2 + |k2|] == k2;
  }

  /** Each date facet (keys being distinct, as in a dict) gets its start, end and gap parameters. */
  lemma {:induction false} DateFacetParams(m: Params, dfs: seq<(string, Record)>, fromPython: PyValue -> string, i: nat)
    requires i < |dfs|
    requires forall p, q :: 0 <= p < q < |dfs| ==> dfs[p].0 != dfs[q].0
    ensures var p := DateParams(m, dfs, fromPython);
      var key := dfs[i].0;
      var value := dfs[i].1;
      && DateKey(key, StartSuffix) in p && p[DateKey(key, StartSuffix)] == PText(fromPython(Get(value, "start_date")))
      && DateKey(key, EndSuffix) in p && p[DateKey(key, EndSuffix)] == PText(fromPython(Get(value, "end_date")))
      && DateKey(key, GapSuffix) in p && p[DateKey(key, GapSuffix)] == PValue(Get(value, "gap"))
    decreases |dfs|
  {
    var n := |dfs|;
    if i < n - 1 {
      var init := dfs[..n - 1];
      assert forall p, q :: 0 <= p < q < |init| ==> init[p].0 != init[q].0 by {
        assert forall p :: 0 <= p < |init| ==> init[p] == dfs[p];
      }
      assert init[i] == dfs[i];
      DateFacetParams(m, init, fromPython, i);
      var last := dfs[n - 1].0;
      assert last != dfs[i].0;
      forall s1, s2 | s1 in {StartSuffix, EndSuffix, GapSuffix} && s2 in {StartSuffix, EndSuffix, GapSuffix}
        ensures DateKey(last, s1) != DateKey(dfs[i].0, s2)
      {
        if DateKey(last, s1) == DateKey(dfs[i].0, s2) {
          DateKeyInjective(last, s1, dfs[i].0, s2);
        }
      }
    } else {
      forall s1, s2 | s1 in {StartSuffix, EndSuffix, GapSuffix} && s2 in {StartSuffix, EndSuffix, GapSuffix} && s1 != s2
        ensures DateKey(dfs[i].0, s1) != DateKey(dfs[i].0, s2)
      {
        if DateKey(dfs[i].0, s1) == DateKey(dfs[i].0, s2) {
          DateKeyInjective(dfs[i].0, s1, dfs[i].0, s2);
        }
      }
    }
  }

  /* ---------------- _process_results ---------------- */

  /** pysolr's facet block; a missing group reads as the empty dict. */
  datatype RawFacets = RawFacets(
    facetFields: map<string, seq<PyValue>>,
    facetDates: map<string, PyValue>,
    facetQueries: map<string, PyValue>)

  /** pysolr's answer: the documents, the hit count, and the optional facet and highlighting blocks. */
  datatype RawResponse = RawResponse(
    docs: seq<Record>,
    hits: int,
    facets: Option<RawFacets>,
    highlighting: map<PyValue, PyValue>)

  /** `dict(zip(l[::2], l[1::2]))`: alternate terms and counts; an odd last term is dropped, a later term wins. */
  function PairUp(l: seq<PyValue>): map<PyValue, PyValue>
    decreases |l|
  {
    if |l| < 2 then map[]
    else if |l| % 2 == 1 then PairUp(l[..|l| - 1])
    else PairUp(l[..|l| - 2])[l[|l| - 2] := l[|l| - 1]]
  }

  /** The flat list Solr sends for term-count pairs. */
  function Flatten(ps: seq<(PyValue, PyValue)>): (l: seq<PyValue>)
    ensures |l| == 2 * |ps|
  {
    if ps == [] then [] else Flatten(ps[..|ps| - 1]) + [ps[|ps| - 1].0, ps[|ps| - 1].1]
  }

  /** The map of a list of pairs, a later pair overriding an earlier one. */
  function MapOf(ps: seq<(PyValue, PyValue)>): map<PyValue, PyValue> {
    if ps == [] then map[] else MapOf(ps[..|ps| - 1])[ps[|ps| - 1].0 := ps[|ps| - 1].1]
  }

  /** Pairing the flat list gives the map of the pairs. */
  lemma {:induction false} PairUpFlatten(ps: seq<(PyValue, PyValue)>)
    ensures PairUp(Flatten(ps)) == MapOf(ps)
  {
    if ps != [] {
      var l := Flatten(ps);
      var n := |ps|;
      assert l[..|l| - 2] == Flatten(ps[..n - 1]);
      assert l[|l| - 2] == ps[n - 1].0 && l[|l| - 1] == ps[n - 1].1;
      PairUpFlatten(ps[..n - 1]);
      PairUpEven(l, |ps|);
    }
  }

  /** On a list of even length, the last two entries are the last pair. */
  lemma PairUpEven(l: seq<PyValue>, n: nat)
    requires |l| == 2 * n && n > 0
    ensures PairUp(l) == PairUp(l[..|l| - 2])[l[|l| - 2] := l[|l| - 1]]
  {
    assert |l| % 2 == 0;
  }

  /** A trailing term without its count is ignored. */
  lemma PairUpOddTail(ps: seq<(PyValue, PyValue)>, x: PyValue)
    ensures PairUp(Flatten(ps) + [x]) == MapOf(ps)
  {
    var l := Flatten(ps) + [x];
    if |l| >= 2 {
      assert l[..|l| - 1] == Flatten(ps);
    }
    PairUpFlatten(ps);
  }

  /** With distinct terms, each term maps to its own count, and the terms are the keys. */
  lemma {:induction false} MapOfLookup(ps: seq<(PyValue, PyValue)>, i: nat)
    requires i < |ps|
    requires forall j :: i < j < |ps| ==> ps[j].0 != ps[i].0
    ensures ps[i].0 in MapOf(ps) && MapOf(ps)[ps[i].0] == ps[i].1
  {
    if i < |ps| - 1 {
      var init := ps[..|ps| - 1];
      assert init[i] == ps[i];
      assert forall j :: i < j < |init| ==> init[j] == ps[j];
      MapOfLookup(init, i);
    }
  }

  lemma {:induction false} MapOfKeys(ps: seq<(PyValue, PyValue)>)
    ensures MapOf(ps).Keys == set k | 0 <= k < |ps| :: ps[k].0
  {
    if ps != [] {
      var n := |ps|;
      var init := ps[..n - 1];
      MapOfKeys(init);
      assert forall k :: 0 <= k < n - 1 ==> init[k] == ps[k];
      assert (set k | 0 <= k < n :: ps[k].0) == (set k | 0 <= k < n - 1 :: init[k].0) + {ps[n - 1].0};
    }
  }

  /** The facet-field loop of `_process_results`, rewriting each entry in place. */
  method PairFacetFields(raw: map<string, seq<PyValue>>) returns (out: map<string, map<PyValue, PyValue>>)
    ensures out.Keys == raw.Keys
    ensures forall f :: f in raw ==> out[f] == PairUp(raw[f])
  {
    out := map[];
    var todo := raw.Keys;
    while todo != {}
      invariant todo <= raw.Keys
      invariant out.Keys == raw.Keys - todo
      invariant forall f :: f in out ==> out[f] == PairUp(raw[f])
      decreases todo
    {
      var f :| f in todo;
      out := out[f := PairUp(raw[f])];
      todo := todo - {f};
    }
  }

  /** The `facets` entry: the empty dict without a facet block, else the three groups. */
  function FacetsOf(raw: RawResponse): Facets {
    if raw.facets.None? then EmptyFacets
    else
      var ff := raw.facets.value.facetFields;
      Counted(map f | f in ff :: PairUp(ff[f]), raw.facets.value.facetDates, raw.facets.value.facetQueries)
  }

  /**
   * One document: split its content type, drop the three bookkeeping keys,
   * and attach its highlighting when its `id` is a key of that block.
   */
  function SolrResultOf(raw: Record, highlighting: map<PyValue, PyValue>): Result<SearchResult, Error> {
    var ct :- Lookup(raw, ContentTypeKey);
    var names :- SplitContentType(ct);
    var pk :- Lookup(raw, ObjectIdKey);
    var score :- Lookup(raw, "score");
    var id :- Lookup(raw, "id");
    var kept := raw - {ContentTypeKey, ObjectIdKey, "score"};
    var fields := if id in highlighting then kept["highlighted" := highlighting[id]] else kept;
    Success(SearchResult(names.0, names.1, pk, score, fields))
  }

  function SolrResultsOf(docs: seq<Record>, highlighting: map<PyValue, PyValue>): (r: Result<seq<SearchResult>, Error>)
    ensures r.Success? ==> |r.value| == |docs|
  {
    if docs == [] then Success([])
    else
      var init :- SolrResultsOf(docs[..|docs| - 1], highlighting);
      var last :- SolrResultOf(docs[|docs| - 1], highlighting);
      Success(init + [last])
  }

  /** The response: the processed documents, the engine's own hit count, the facets. */
  function SolrResponseOf(raw: RawResponse): Result<Response, Error> {
    var rs :- SolrResultsOf(raw.docs, raw.highlighting);
    Success(Response(rs, raw.hits, FacetsOf(raw)))
  }

  lemma {:induction false} SolrResultsFailAt(docs: seq<Record>, hl: map<PyValue, PyValue>, i: nat)
    requires i < |docs|
    requires SolrResultsOf(docs[..i], hl).Success?
    requires SolrResultOf(docs[i], hl).Failure?
    ensures SolrResultsOf(docs, hl) == Failure(SolrResultOf(docs[i], hl).error)
    decreases |docs|
  {
    var n := |docs|;
    if i == n - 1 {
      assert docs[..n - 1] == docs[..i];
    } else {
      assert docs[..n - 1][..i] == docs[..i];
      assert docs[..n - 1][i] == docs[i];
      SolrResultsFailAt(docs[..n - 1], hl, i);
    }
  }

  /** The facet block of `_process_results`: each field's flat list becomes a dict. */
  method ProcessFacets(raw: RawResponse) returns (facets: Facets)
    ensures facets == FacetsOf(raw)
  {
    facets := EmptyFacets;
    if raw.facets.Some? {
      var fields := PairFacetFields(raw.facets.value.facetFields);
      var ff := raw.facets.value.facetFields;
      assert fields == map f | f in ff :: PairUp(ff[f]);
      facets := Counted(fields, raw.facets.value.facetDates, raw.facets.value.facetQueries);
    }
  }

  /** `_process_results`: the facet block first, then one result per document. */
  method ProcessResults(raw: RawResponse) returns (r: Result<Response, Error>)
    ensures r == SolrResponseOf(raw)
  {
    var facets := ProcessFacets(raw);
    var results: seq<SearchResult> := [];
    var i := 0;
    while i < |raw.docs|
      invariant 0 <= i <= |raw.docs|
      invariant SolrResultsOf(raw.docs[..i], raw.highlighting) == Success(results)
    {
      assert raw.docs[..i + 1][..i] == raw.docs[..i];
      var res := SolrResultOf(raw.docs[i], raw.highlighting);
      if res.Failure? {
        SolrResultsFailAt(raw.docs, raw.highlighting, i);
        return Failure(res.error);
      }
      results := results + [res.value];
      i := i + 1;
    }
    assert raw.docs[..i] == raw.docs;
    return Success(Response(results, raw.hits, facets));
  }

  /**
   * A processed document keeps every field but the three bookkeeping keys,
   * with its value, and has `highlighted` exactly when its id is highlighted.
   */
  lemma SolrResultFields(raw: Record, hl: map<PyValue, PyValue>)
    requires SolrResultOf(raw, hl).Success?
    ensures var r := SolrResultOf(raw, hl).value;
      && "id" in raw
      && r.fields.Keys == (raw.Keys - {ContentTypeKey, ObjectIdKey, "score"}) + (if raw["id"] in hl then {"highlighted"} else {})
      && (forall k :: k in r.fields && k != "highlighted" ==> r.fields[k] == raw[k])
      && (raw["id"] in hl ==> r.fields["highlighted"] == hl[raw["id"]])
      && r.pk == raw[ObjectIdKey] && r.score == raw["score"]
      && raw[ContentTypeKey] == PyStr(r.appLabel + "." + r.modelName)
  {
    ContentTypeSplitJoins(raw[ContentTypeKey]);
  }

  /** Unlike Whoosh, a document without `score`, or without `id`, is refused with KeyError. */
  lemma SolrResultNeedsKeys(raw: Record, hl: map<PyValue, PyValue>)
    requires ContentTypeKey in raw && SplitContentType(raw[ContentTypeKey]).Success? && ObjectIdKey in raw
    ensures "score" !in raw ==> SolrResultOf(raw, hl) == Failure(KeyError("score"))
    ensures "score" in raw && "id" !in raw ==> SolrResultOf(raw, hl) == Failure(KeyError("id"))
  {
  }

  /** `hits` is the engine's count, not the number of documents returned; field facets are paired up. */
  lemma SolrResponseShape(raw: RawResponse)
    requires SolrResponseOf(raw).Success?
    ensures SolrResponseOf(raw).value.hits == raw.hits
    ensures |SolrResponseOf(raw).value.results| == |raw.docs|
    ensures raw.facets.None? ==> SolrResponseOf(raw).value.facets == EmptyFacets
    ensures raw.facets.Some? ==>
      var f := SolrResponseOf(raw).value.facets;
      && f.Counted?
      && f.fields.Keys == raw.facets.value.facetFields.Keys
      && (forall k :: k in f.fields ==> f.fields[k] == PairUp(raw.facets.value.facetFields[k]))
      && f.dates == raw.facets.value.facetDates && f.queries == raw.facets.value.facetQueries
  {
  }

  /* ---------------- search and run ---------------- */

  /** The request `search` sends through the connection. */
  datatype SolrCall = SolrCall(query: string, params: Params)

  function SearchOf(queryString: string, raw: RawResponse): Result<Outcome, Error> {
    if |queryString| == 0 then Success(EmptyList)
    else
      var resp :- SolrResponseOf(raw);
      Success(Answered(resp))
  }

  function SolrCallOf(queryString: string, a: SearchArgs, fromPython: PyValue -> string): Option<SolrCall> {
    if |queryString| == 0 then None else Some(SolrCall(queryString, ParamsOf(a, fromPython)))
  }

  /** `search`: an empty query string is answered with `[]` before the connection is used. */
  method Search(queryString: string, a: SearchArgs, fromPython: PyValue -> string, raw: RawResponse)
    returns (r: Result<Outcome, Error>, call: Option<SolrCall>)
    ensures r == SearchOf(queryString, raw)
    ensures call == SolrCallOf(queryString, a, fromPython)
  {
    if |queryString| == 0 {
      return Success(EmptyList), None;
    }
    var kwargs := SearchParams(a, fromPython);
    call := Some(SolrCall(queryString, kwargs));
    var resp := ProcessResults(raw);
    if resp.Failure? {
      return Failure(resp.error), call;
    }
    return Success(Answered(resp.value)), call;
  }

  /** What `run` makes of the outcome of `search`. */
  function RunAfterSearch(out: Result<Outcome, Error>): Result<Response, Error> {
    var o :- out;
    if o.EmptyList? then Failure(AttributeError("'list' object has no attribute 'get'")) else Success(o.response)
  }

  /**
   * What `run` stores. `results.get(...)` on the `[]` that an empty compiled
   * query gets back raises AttributeError.
   */
  function RunOf(filters: seq<Atom>, models: seq<ModelRef>, boost: seq<(string, PyValue)>, raw: RawResponse): Result<Response, Error> {
    var q :- Compile(Solr, filters, models, boost);
    RunAfterSearch(SearchOf(q, raw))
  }

  /** Once the query has compiled, `run` is what it makes of `search`'s outcome on that query. */
  lemma RunOfCompiled(filters: seq<Atom>, models: seq<ModelRef>, boost: seq<(string, PyValue)>, raw: RawResponse, q: string)
    requires Compile(Solr, filters, models, boost) == Success(q)
    ensures RunOf(filters, models, boost, raw) == RunAfterSearch(SearchOf(q, raw))
  {
  }

  /** The Solr `SearchQuery`: its settings, and the results and hit count `run` stores. */
  class SolrQuery {
    const filters: seq<Atom>
    const models: seq<ModelRef>
    const boost: seq<(string, PyValue)>
    const orderBy: seq<string>
    const startOffset: int
    const endOffset: Option<int>
    const highlight: PyValue
    const facets: seq<string>
    const dateFacets: seq<(string, Record)>
    const queryFacets: seq<(string, PyValue)>
    const existingFacets: seq<(string, PyValue)>
    var results: seq<SearchResult>
    var hitCount: int

    constructor (filters: seq<Atom>, models: seq<ModelRef>, boost: seq<(string, PyValue)>, orderBy: seq<string>,
                 startOffset: int, endOffset: Option<int>, highlight: PyValue, facets: seq<string>,
                 dateFacets: seq<(string, Record)>, queryFacets: seq<(string, PyValue)>,
                 existingFacets: seq<(string, PyValue)>)
      ensures this.filters == filters && this.models == models && this.boost == boost && this.orderBy == orderBy
      ensures this.startOffset == startOffset && this.endOffset == endOffset && this.highlight == highlight
      ensures this.facets == facets && this.dateFacets == dateFacets && this.queryFacets == queryFacets
      ensures this.existingFacets == existingFacets && results == [] && hitCount == 0
    {
      this.filters := filters;
      this.models := models;
      this.boost := boost;
      this.orderBy := orderBy;
      this.startOffset := startOffset;
      this.endOffset := endOffset;
      this.highlight := highlight;
      this.facets := facets;
      this.dateFacets := dateFacets;
      this.queryFacets := queryFacets;
      this.existingFacets := existingFacets;
      results := [];
      hitCount := 0;
    }

    /** The options `run` passes to `search`. */
    function Args(): SearchArgs {
      RunArgsOf(orderBy, startOffset, endOffset, highlight, facets, dateFacets, queryFacets, existingFacets)
    }

    /**
     * `run`: compile, shape the options, search, and store the results and
     * the hit count; `raw` is the connection's answer.
     */
    method Run(fromPython: PyValue -> string, raw: RawResponse) returns (err: Option<Error>, call: Option<SolrCall>)
      modifies this
      ensures RunOf(filters, models, boost, raw).Success? ==>
        err.None? && results == RunOf(filters, models, boost, raw).value.results
        && hitCount == RunOf(filters, models, boost, raw).value.hits
      ensures RunOf(filters, models, boost, raw).Failure? ==>
        err == Some(RunOf(filters, models, boost, raw).error) && results == old(results) && hitCount == old(hitCount)
      ensures Compile(Solr, filters, models, boost).Success? ==>
        call == SolrCallOf(Compile(Solr, filters, models, boost).value, Args(), fromPython)
    {
      call := None;
      var q := BuildQuery(Solr, filters, models, boost);
      if q.Failure? {
        assert RunOf(filters, models, boost, raw) == Failure(q.error);
        return Some(q.error), None;
      }
      var args := RunOptions(orderBy, startOffset, endOffset, highlight, facets, dateFacets, queryFacets, existingFacets);
      assert args == Args();
      var out;
      out, call := Search(q.value, args, fromPython, raw);
      RunOfCompiled(filters, models, boost, raw, q.value);
      var stored := RunAfterSearch(out);
      if stored.Failure? {
        return Some(stored.error), call;
      }
      results := stored.value.results;
      hitCount := stored.value.hits;
      return None, call;
    }
  }

  /**
   * A query that compiles to the empty string makes `run` raise instead of
   * storing an empty result: a lone content filter `AND` is such a query.
   */
  lemma RunRaisesOnEmptyQuery(raw: RawResponse)
    ensures RunOf([Atom("content", Exact, PyStr("AND"), NoConnector)], [], [], raw)
      == Failure(AttributeError("'list' object has no attribute 'get'"))
  {
    LeadingChunkTestIsOnText();
  }

  /** A non-empty compiled query stores the processed response: its results and the engine's hit count. */
  lemma RunStoresResponse(filters: seq<Atom>, models: seq<ModelRef>, boost: seq<(string, PyValue)>, raw: RawResponse)
    requires Compile(Solr, filters, models, boost).Success? && Compile(Solr, filters, models, boost).value != ""
    requires SolrResponseOf(raw).Success?
    ensures RunOf(filters, models, boost, raw).Success?
    ensures RunOf(filters, models, boost, raw).value.hits == raw.hits
    ensures |RunOf(filters, models, boost, raw).value.results| == |raw.docs|
  {
  }
}
