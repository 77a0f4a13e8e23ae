/**
 * `SearchQuery.build_query`, shared by the Whoosh and the Solr backend: it
 * lowers an ordered list of filter atoms, the model restrictions and the
 * boost terms into the engine's query string. The two backends run the same
 * algorithm and differ only in their match-all token and their operator
 * templates, so the engine is a parameter (a strategy), not a copy.
 */
module QueryCompiler {
  import opened Wrappers
  import opened Text
  import opened Python

  /** The engine whose syntax the compiler emits. */
  datatype Engine = Whoosh | Solr

  /** The connector a filter carries in front of it; the first filter usually has none. */
  datatype Connector = And | Not | Or | NoConnector

  /** The operators of VALID_FILTERS. */
  datatype FilterType = Exact | Gt | Gte | Lt | Lte | In

  /** One filter atom: `field__filterType=value`, joined to the previous one by `connector`. */
  datatype Atom = Atom(field: string, filterType: FilterType, value: PyValue, connector: Connector)

  /** A model restriction, named by its app label and module name. */
  datatype ModelRef = ModelRef(appLabel: string, moduleName: string)

  /**
   * An entry of the chunk list. Normally text; a list value on the `content`
   * field is appended unformatted, and joining then fails.
   */
  datatype Chunk = TextChunk(text: string) | ListChunk(items: seq<PyValue>)

  /** The query that matches every document. */
  function MatchAll(e: Engine): string {
    match e
    case Whoosh => "*"
    case Solr => "*:*"
  }

  /** The chunk a connector contributes before its atom's predicate. */
  function ConnectorChunks(c: Connector): seq<Chunk> {
    match c
    case And => [TextChunk("AND")]
    case Not => [TextChunk("NOT")]
    case Or => [TextChunk("OR")]
    case NoConnector => []
  }

  /** Numbers become their decimal text; `bool` is an `int` to Python, so it does too. */
  function Stringify(v: PyValue): PyValue {
    if v.PyInt? || v.PyBool? then PyStr(ToStr(v)) else v
  }

  /** `' ' in value`: a substring test on text, a membership test on a list, a TypeError otherwise. */
  function HasSpace(v: PyValue): Result<bool, Error> {
    match v
    case PyStr(s) => Success(' ' in s)
    case PyList(xs) => Success(PyStr(" ") in xs)
    case _ => Failure(TypeError("argument is not iterable"))
  }

  /** The value after stringifying and phrase quoting. */
  function PhraseValue(v: PyValue): (r: Result<PyValue, Error>)
    ensures r.Success? ==> r.value.PyStr? || r.value.PyList?
    ensures r.Success? <==> !v.PyNone?
  {
    var w := Stringify(v);
    var space :- HasSpace(w);
    Success(if space then PyStr("\"" + ToStr(w) + "\"") else w)
  }

  /** The per-engine templates of the five operators other than `in`. */
  function RangeTemplate(e: Engine, op: FilterType, f: string, v: string): string
    requires op != In
  {
    match e
    case Whoosh =>
      (match op
       case Exact => f + ":" + v
       case Gt => f + ":" + v + "..*"
       case Gte => "NOT " + f + ":*.." + v
       case Lt => f + ":*.." + v
       case Lte => "NOT " + f + ":" + v + "..*")
    case Solr =>
      (match op
       case Exact => f + ":" + v
       case Gt => f + ":{" + v + " TO *}"
       case Gte => f + ":[" + v + " TO *]"
       case Lt => f + ":{* TO " + v + "}"
       case Lte => f + ":[* TO " + v + "]")
  }

  /** What `for possible_value in value` yields, each formatted with `%s`. */
  function Members(v: PyValue): seq<string>
    requires v.PyStr? || v.PyList?
  {
    if v.PyStr? then seq(|v.s|, k requires 0 <= k < |v.s| => [v.s[k]])
    else seq(|v.items|, k requires 0 <= k < |v.items| => ToStr(v.items[k]))
  }

  /** The `in` group: one `field:member` per member, OR-ed inside parentheses. */
  function InGroup(f: string, members: seq<string>): string {
    "(" + Join(seq(|members|, k requires 0 <= k < |members| => f + ":" + members[k]), " OR ") + ")"
  }

  /** The predicate chunk of an atom whose value has already been phrase-quoted. */
  function PredicateChunk(e: Engine, a: Atom, v: PyValue): Chunk
    requires v.PyStr? || v.PyList?
  {
    if a.field == "content" then
      (if v.PyStr? then TextChunk(v.s) else ListChunk(v.items))
    else if a.filterType != In then
      TextChunk(RangeTemplate(e, a.filterType, a.field, ToStr(v)))
    else
      TextChunk(InGroup(a.field, Members(v)))
  }

  /** The chunks one atom appends: its connector chunk, then its predicate. */
  function AtomChunks(e: Engine, a: Atom): (r: Result<seq<Chunk>, Error>)
    ensures r.Success? <==> !a.value.PyNone?
    ensures r.Success? ==> |r.value| >= 1
  {
    var v :- PhraseValue(a.value);
    Success(ConnectorChunks(a.connector) + [PredicateChunk(e, a, v)])
  }

  /** The chunk list of a filter list, the atoms taken in order. */
  function ChunksOf(e: Engine, atoms: seq<Atom>): (r: Result<seq<Chunk>, Error>)
    ensures r.Success? ==> |r.value| >= |atoms|
  {
    if atoms == [] then Success([])
    else
      var init :- ChunksOf(e, atoms[..|atoms| - 1]);
      var last :- AtomChunks(e, atoms[|atoms| - 1]);
      Success(init + last)
  }

  /** The chunk list without a leading `AND` or `OR`. */
  function DropLeading(chunks: seq<Chunk>): seq<Chunk>
    requires chunks != []
  {
    if chunks[0] == TextChunk("AND") || chunks[0] == TextChunk("OR") then chunks[1..] else chunks
  }

  function Texts(chunks: seq<Chunk>): seq<string> {
    seq(|chunks|, k requires 0 <= k < |chunks| => if chunks[k].TextChunk? then chunks[k].text else "")
  }

  /** `" ".join(chunks)`, which refuses a list entry. */
  function JoinChunks(chunks: seq<Chunk>): Result<string, Error> {
    if forall k :: 0 <= k < |chunks| ==> chunks[k].TextChunk? then Success(Join(Texts(chunks), " "))
    else Failure(TypeError("sequence item: expected string, list found"))
  }

  /** The query before model restrictions and boosts. */
  function QueryClause(e: Engine, atoms: seq<Atom>): Result<string, Error> {
    if atoms == [] then Success(MatchAll(e))
    else
      var chunks :- ChunksOf(e, atoms);
      JoinChunks(DropLeading(chunks))
  }

  function ModelClause(m: ModelRef): string {
    "django_ct_s:\"" + m.appLabel + "." + m.moduleName + "\""
  }

  function ModelClauses(models: seq<ModelRef>): seq<string> {
    seq(|models|, k requires 0 <= k < |models| => ModelClause(models[k]))
  }

  /** A boost entry `(word, weight)` rendered as `word^weight`. */
  function BoostTerm(b: (string, PyValue)): string {
    b.0 + "^" + ToStr(b.1)
  }

  function BoostTerms(boosts: seq<(string, PyValue)>): seq<string> {
    seq(|boosts|, k requires 0 <= k < |boosts| => BoostTerm(boosts[k]))
  }

  /** The model clause and the boost terms attached to a query. */
  function Decorate(query: string, models: seq<ModelRef>, boosts: seq<(string, PyValue)>): string {
    var restricted := if |models| > 0 then "(" + query + ") AND (" + Join(ModelClauses(models), " OR ") + ")" else query;
    if |boosts| > 0 then restricted + " " + Join(BoostTerms(boosts), " ") else restricted
  }

  /** The compiled query: the specification `BuildQuery` is proved against. */
  function Compile(e: Engine, atoms: seq<Atom>, models: seq<ModelRef>, boosts: seq<(string, PyValue)>): Result<string, Error> {
    var query :- QueryClause(e, atoms);
    Success(Decorate(query, models, boosts))
  }

  /** An atom that fails stops the whole chunk list, whatever follows it. */
  lemma {:induction false} ChunksOfFailsAt(e: Engine, atoms: seq<Atom>, i: nat)
    requires i < |atoms|
    requires ChunksOf(e, atoms[..i]).Success?
    requires AtomChunks(e, atoms[i]).Failure?
    ensures ChunksOf(e, atoms) == Failure(AtomChunks(e, atoms[i]).error)
    decreases |atoms|
  {
    var n := |atoms|;
    if i == n - 1 {
      assert atoms[..n - 1] == atoms[..i];
    } else {
      assert atoms[..n - 1][..i] == atoms[..i];
      assert atoms[..n - 1][i] == atoms[i];
      ChunksOfFailsAt(e, atoms[..n - 1], i);
    }
  }

  /** Stringify a number, then quote a value for which `' ' in value` holds. */
  method QuoteValue(v: PyValue) returns (r: Result<PyValue, Error>)
    ensures r == PhraseValue(v)
  {
    var value := v;
    if value.PyInt? || value.PyBool? {
      value := PyStr(ToStr(value));
    }
    var space: bool;
    match value {
      case PyStr(s) =>
        space := ' ' in s;
      case PyList(xs) =>
        space := PyStr(" ") in xs;
      case _ =>
        return Failure(TypeError("argument is not iterable"));
    }
    if space {
      value := PyStr("\"" + ToStr(value) + "\"");
    }
    return Success(value);
  }

  /** The predicate of one atom: the bare value on `content`, a template, or an `in` group built in a loop. */
  method Predicate(e: Engine, a: Atom, value: PyValue) returns (c: Chunk)
    requires value.PyStr? || value.PyList?
    ensures c == PredicateChunk(e, a, value)
  {
    if a.field == "content" {
      c := if value.PyStr? then TextChunk(value.s) else ListChunk(value.items);
    } else if a.filterType != In {
      c := TextChunk(RangeTemplate(e, a.filterType, a.field, ToStr(value)));
    } else {
      var members := Members(value);
      var inOptions: seq<string> := [];
      var j := 0;
      while j < |members|
        invariant 0 <= j <= |members|
        invariant inOptions == seq(j, k requires 0 <= k < j => a.field + ":" + members[k])
      {
        inOptions := inOptions + [a.field + ":" + members[j]];
        j := j + 1;
      }
      c := TextChunk("(" + Join(inOptions, " OR ") + ")");
    }
  }

  /**
   * One pass of `build_query`'s loop: append the atom's connector chunk, then
   * its predicate over the stringified, phrase-quoted value.
   */
  method AppendAtom(e: Engine, chunks: seq<Chunk>, a: Atom) returns (r: Result<seq<Chunk>, Error>)
    ensures AtomChunks(e, a).Failure? ==> r == Failure(AtomChunks(e, a).error)
    ensures AtomChunks(e, a).Success? ==> r == Success(chunks + AtomChunks(e, a).value)
  {
    var out := chunks;
    if a.connector == And {
      out := out + [TextChunk("AND")];
    }
    if a.connector == Not {
      out := out + [TextChunk("NOT")];
    }
    if a.connector == Or {
      out := out + [TextChunk("OR")];
    }
    assert out == chunks + ConnectorChunks(a.connector);
    var value :- QuoteValue(a.value);
    var p := Predicate(e, a, value);
    assert out + [p] == chunks + (ConnectorChunks(a.connector) + [p]);
    return Success(out + [p]);
  }

  /** The boost terms, built one entry at a time. */
  method BoostList(boost: seq<(string, PyValue)>) returns (terms: seq<string>)
    ensures |terms| == |boost|
    ensures forall k :: 0 <= k < |boost| ==> terms[k] == boost[k].0 + "^" + ToStr(boost[k].1)
  {
    terms := [];
    var j := 0;
    while j < |boost|
      invariant 0 <= j <= |boost|
      invariant |terms| == j
      invariant forall k :: 0 <= k < j ==> terms[k] == boost[k].0 + "^" + ToStr(boost[k].1)
    {
      terms := terms + [BoostTerm(boost[j])];
      j := j + 1;
    }
  }

  /**
   * The imperative `build_query`: it appends each atom's chunks to the chunk
   * list, deletes a leading `AND`/`OR` chunk, joins, then attaches the model
   * clause and the boost terms.
   */
  method BuildQuery(e: Engine, filters: seq<Atom>, models: seq<ModelRef>, boost: seq<(string, PyValue)>)
    returns (r: Result<string, Error>)
    ensures r == Compile(e, filters, models, boost)
  {
    var query: string;
    if |filters| == 0 {
      query := MatchAll(e);
    } else {
      var chunks: seq<Chunk> := [];
      var i := 0;
      while i < |filters|
        invariant 0 <= i <= |filters|
        invariant ChunksOf(e, filters[..i]) == Success(chunks)
      {
        var next := AppendAtom(e, chunks, filters[i]);
        if next.Failure? {
          ChunksOfFailsAt(e, filters, i);
          return Failure(next.error);
        }
        assert filters[..i + 1][..i] == filters[..i];
        chunks := next.value;
        i := i + 1;
      }
      assert filters[..i] == filters;
      if chunks[0] == TextChunk("AND") || chunks[0] == TextChunk("OR") {
        chunks := chunks[1..];
      }
      query :- JoinChunks(chunks);
    }
    var finalQuery := query;
    if |models| > 0 {
      finalQuery := "(" + query + ") AND (" + Join(ModelClauses(models), " OR ") + ")";
    }
    if |boost| > 0 {
      var boostList := BoostList(boost);
      assert boostList == BoostTerms(boost);
      finalQuery := finalQuery + " " + Join(boostList, " ");
    }
    return Success(finalQuery);
  }

  /* ---------------- properties of the compiled query ---------------- */

  /** With no filter atoms the query is the engine's match-all token, and compiling never raises. */
  lemma EmptyFiltersMatchAll(e: Engine, models: seq<ModelRef>, boosts: seq<(string, PyValue)>)
    ensures Compile(e, [], [], []) == Success(MatchAll(e))
    ensures Compile(Whoosh, [], [], []) == Success("*")
    ensures Compile(Solr, [], [], []) == Success("*:*")
    ensures Compile(e, [], models, boosts).Success?
  {
  }

  /** One unfolding of the chunk list: everything before the last atom, then the last atom's chunks. */
  lemma ChunksOfSnoc(e: Engine, atoms: seq<Atom>)
    requires |atoms| > 0
    ensures ChunksOf(e, atoms).Success? <==>
      ChunksOf(e, atoms[..|atoms| - 1]).Success? && AtomChunks(e, atoms[|atoms| - 1]).Success?
    ensures ChunksOf(e, atoms).Success? ==>
      ChunksOf(e, atoms).value == ChunksOf(e, atoms[..|atoms| - 1]).value + AtomChunks(e, atoms[|atoms| - 1]).value
  {
  }

  /** The chunk list read from the front: the first atom's chunks, then the rest's. */
  lemma {:induction false} ChunksOfCons(e: Engine, atoms: seq<Atom>)
    requires |atoms| > 0
    ensures ChunksOf(e, atoms).Success? <==> AtomChunks(e, atoms[0]).Success? && ChunksOf(e, atoms[1..]).Success?
    ensures ChunksOf(e, atoms).Success? ==>
      ChunksOf(e, atoms).value == AtomChunks(e, atoms[0]).value + ChunksOf(e, atoms[1..]).value
    decreases |atoms|
  {
    var n := |atoms|;
    if n == 1 {
      assert atoms[..0] == [];
      assert atoms[1..] == [];
      ChunksOfSnoc(e, atoms);
    } else {
      var init := atoms[..n - 1];
      var tail := atoms[1..];
      ChunksOfCons(e, init);
      assert init[0] == atoms[0];
      assert init[1..] == tail[..n - 2];
      assert tail[n - 2] == atoms[n - 1];
      ChunksOfSnoc(e, atoms);
      ChunksOfSnoc(e, tail);
      Reassociate(ChunksOf(e, atoms), ChunksOf(e, init), ChunksOf(e, tail), ChunksOf(e, init[1..]),
        AtomChunks(e, atoms[0]), AtomChunks(e, atoms[n - 1]));
    }
  }

  /** The bookkeeping step of `ChunksOfCons`: whole = init + last, init = first + middle, tail = middle + last. */
  lemma Reassociate(whole: Result<seq<Chunk>, Error>, init: Result<seq<Chunk>, Error>, tail: Result<seq<Chunk>, Error>,
                    middle: Result<seq<Chunk>, Error>, first: Result<seq<Chunk>, Error>, last: Result<seq<Chunk>, Error>)
    requires whole.Success? <==> init.Success? && last.Success?
    requires whole.Success? ==> whole.value == init.value + last.value
    requires init.Success? <==> first.Success? && middle.Success?
    requires init.Success? ==> init.value == first.value + middle.value
    requires tail.Success? <==> middle.Success? && last.Success?
    requires tail.Success? ==> tail.value == middle.value + last.value
    ensures whole.Success? <==> first.Success? && tail.Success?
    ensures whole.Success? ==> whole.value == first.value + tail.value
  {
    if whole.Success? {
      assert (first.value + middle.value) + last.value == first.value + (middle.value + last.value);
    }
  }

  /** An atom whose list value is put into the chunk list unformatted. */
  predicate UnquotedContentList(a: Atom) {
    a.field == "content" && a.value.PyList? && PyStr(" ") !in a.value.items
  }

  /** All chunks of a concatenation are text exactly when all chunks of both parts are. */
  lemma AllTextConcat(cs: seq<Chunk>, last: seq<Chunk>)
    ensures (forall k :: 0 <= k < |cs + last| ==> (cs + last)[k].TextChunk?) <==>
      (forall k :: 0 <= k < |cs| ==> cs[k].TextChunk?) && (forall k :: 0 <= k < |last| ==> last[k].TextChunk?)
  {
    var all := cs + last;
    assert forall k :: 0 <= k < |cs| ==> all[k] == cs[k];
    assert forall k :: 0 <= k < |last| ==> all[|cs| + k] == last[k];
  }

  /** An atom's chunks are all text exactly when it is not an unquoted content list. */
  lemma AtomChunksText(e: Engine, a: Atom)
    requires AtomChunks(e, a).Success?
    ensures (forall k :: 0 <= k < |AtomChunks(e, a).value| ==> AtomChunks(e, a).value[k].TextChunk?) <==> !UnquotedContentList(a)
  {
    var last := AtomChunks(e, a).value;
    var v := PhraseValue(a.value).value;
    assert last == ConnectorChunks(a.connector) + [PredicateChunk(e, a, v)];
    assert PredicateChunk(e, a, v).ListChunk? <==> UnquotedContentList(a);
    assert last[|last| - 1] == PredicateChunk(e, a, v);
  }

  /** When the chunk list exists, and when it holds only text. */
  lemma {:induction false} ChunksOfShape(e: Engine, atoms: seq<Atom>)
    ensures ChunksOf(e, atoms).Success? <==> forall k :: 0 <= k < |atoms| ==> !atoms[k].value.PyNone?
    ensures ChunksOf(e, atoms).Success? ==>
      ((forall k :: 0 <= k < |ChunksOf(e, atoms).value| ==> ChunksOf(e, atoms).value[k].TextChunk?) <==>
       (forall k :: 0 <= k < |atoms| ==> !UnquotedContentList(atoms[k])))
  {
    if atoms != [] {
      var n := |atoms|;
      var init := atoms[..n - 1];
      var a := atoms[n - 1];
      ChunksOfShape(e, init);
      assert forall k :: 0 <= k < n - 1 ==> init[k] == atoms[k];
      assert (forall k :: 0 <= k < n ==> !atoms[k].value.PyNone?) <==>
             (forall k :: 0 <= k < n - 1 ==> !init[k].value.PyNone?) && !a.value.PyNone?;
      assert (forall k :: 0 <= k < n ==> !UnquotedContentList(atoms[k])) <==>
             (forall k :: 0 <= k < n - 1 ==> !UnquotedContentList(init[k])) && !UnquotedContentList(a);
      if ChunksOf(e, atoms).Success? {
        AtomChunksText(e, a);
        AllTextConcat(ChunksOf(e, init).value, AtomChunks(e, a).value);
      }
    }
  }

  /**
   * `build_query` raises TypeError exactly when some atom has the value None,
   * or a list on the `content` field that is not quoted as a phrase.
   */
  lemma CompileRaises(e: Engine, atoms: seq<Atom>, models: seq<ModelRef>, boosts: seq<(string, PyValue)>)
    ensures Compile(e, atoms, models, boosts).Failure? <==>
      exists k :: 0 <= k < |atoms| && (atoms[k].value.PyNone? || UnquotedContentList(atoms[k]))
  {
    ChunksOfShape(e, atoms);
    if atoms != [] && ChunksOf(e, atoms).Success? {
      var cs := ChunksOf(e, atoms).value;
      var d := DropLeading(cs);
      assert (forall k :: 0 <= k < |d| ==> d[k].TextChunk?) <==> (forall k :: 0 <= k < |cs| ==> cs[k].TextChunk?) by {
        if d != cs {
          assert cs[0].TextChunk? && d == cs[1..];
          assert forall k :: 0 < k < |cs| ==> cs[k] == d[k - 1];
        }
      }
    }
  }

  /**
   * A leading AND or OR is dropped, so the query starts with the first atom's
   * predicate; a leading NOT is kept.
   */
  lemma LeadingConnectorDropped(e: Engine, atoms: seq<Atom>)
    requires |atoms| > 0 && ChunksOf(e, atoms).Success?
    ensures ChunksOf(e, atoms[1..]).Success? && PhraseValue(atoms[0].value).Success?
    ensures var a := atoms[0];
      var p := PredicateChunk(e, a, PhraseValue(a.value).value);
      var rest := ChunksOf(e, atoms[1..]).value;
      && ((a.connector == And || a.connector == Or) ==> DropLeading(ChunksOf(e, atoms).value) == [p] + rest)
      && (a.connector == Not ==> DropLeading(ChunksOf(e, atoms).value) == [TextChunk("NOT"), p] + rest)
      && (a.connector == NoConnector && p != TextChunk("AND") && p != TextChunk("OR") ==>
            DropLeading(ChunksOf(e, atoms).value) == [p] + rest)
  {
    ChunksOfCons(e, atoms);
    var a := atoms[0];
    AtomChunksOf(e, a);
    var p := PredicateChunk(e, a, PhraseValue(a.value).value);
    var rest := ChunksOf(e, atoms[1..]).value;
    var cs := ChunksOf(e, atoms).value;
    assert cs == ConnectorChunks(a.connector) + [p] + rest;
    match a.connector {
      case And =>
        assert cs == [TextChunk("AND")] + ([p] + rest);
      case Or =>
        assert cs == [TextChunk("OR")] + ([p] + rest);
      case Not =>
        assert cs[0] == TextChunk("NOT");
      case NoConnector =>
        assert cs[0] == p;
    }
  }

  /** A space-joined list of at least two words starts with the first two and a space between. */
  lemma JoinStartsWithTwo(ts: seq<string>)
    requires |ts| >= 2
    ensures ts[0] + " " + ts[1] <= Join(ts, " ")
  {
    assert Join(ts, " ") == ts[0] + " " + Join(ts[1..], " ");
    assert ts[1..][0] == ts[1];
  }

  /** The same, read on the query string: after a leading AND or OR, the query starts with the first predicate. */
  lemma QueryStartsWithPredicate(e: Engine, atoms: seq<Atom>)
    requires |atoms| > 0 && QueryClause(e, atoms).Success?
    requires atoms[0].connector == And || atoms[0].connector == Or
    ensures PhraseValue(atoms[0].value).Success?
    ensures var p := PredicateChunk(e, atoms[0], PhraseValue(atoms[0].value).value);
      p.TextChunk? && p.text <= QueryClause(e, atoms).value
  {
    LeadingConnectorDropped(e, atoms);
    var p := PredicateChunk(e, atoms[0], PhraseValue(atoms[0].value).value);
    var d := DropLeading(ChunksOf(e, atoms).value);
    assert d[0] == p;
    assert QueryClause(e, atoms) == JoinChunks(d);
    assert Texts(d)[0] == p.text;
  }

  /** A leading NOT stays in front of the first predicate. */
  lemma QueryStartsWithNot(e: Engine, atoms: seq<Atom>)
    requires |atoms| > 0 && QueryClause(e, atoms).Success?
    requires atoms[0].connector == Not
    ensures PhraseValue(atoms[0].value).Success?
    ensures var p := PredicateChunk(e, atoms[0], PhraseValue(atoms[0].value).value);
      p.TextChunk? && "NOT " + p.text <= QueryClause(e, atoms).value
  {
    LeadingConnectorDropped(e, atoms);
    var p := PredicateChunk(e, atoms[0], PhraseValue(atoms[0].value).value);
    var cs := DropLeading(ChunksOf(e, atoms).value);
    assert cs[0] == TextChunk("NOT") && cs[1] == p;
    assert QueryClause(e, atoms) == JoinChunks(cs);
    assert JoinChunks(cs).Success?;
    assert cs[1].TextChunk?;
    var ts := Texts(cs);
    assert QueryClause(e, atoms).value == Join(ts, " ");
    assert ts[0] == "NOT" && ts[1] == p.text;
    JoinStartsWithTwo(ts);
    NotPrefix(p.text);
  }

  lemma NotPrefix(t: string)
    ensures "NOT" + " " + t == "NOT " + t
  {
  }


  /** The chunks of an atom whose value is not None: its connector's, then its predicate. */
  lemma AtomChunksOf(e: Engine, a: Atom)
    requires !a.value.PyNone?
    ensures PhraseValue(a.value).Success?
    ensures AtomChunks(e, a) == Success(ConnectorChunks(a.connector) + [PredicateChunk(e, a, PhraseValue(a.value).value)])
  {
  }

  /** A one-atom filter list has that atom's chunks. */
  lemma SingleAtomChunks(e: Engine, a: Atom)
    ensures ChunksOf(e, [a]) == AtomChunks(e, a)
  {
    assert [a][..0] == [];
    assert ChunksOf(e, [a][..0]) == Success([]);
    var r := AtomChunks(e, a);
    if r.Success? {
      assert [] + r.value == r.value;
    } else {
      assert r == Failure(r.error);
    }
  }

  /**
   * The leading-chunk test compares chunk text, not connectors: a `content`
   * value that reads `AND` or `OR` can itself be removed or left in front.
   */
  lemma LeadingChunkTestIsOnText()
    ensures Compile(Whoosh, [Atom("content", Exact, PyStr("AND"), NoConnector)], [], []) == Success("")
    ensures Compile(Solr, [Atom("content", Exact, PyStr("AND"), NoConnector)], [], []) == Success("")
    ensures Compile(Solr, [Atom("content", Exact, PyStr("OR"), And)], [], []) == Success("OR")
  {
    assert ' ' !in "AND" && ' ' !in "OR";
    var a1 := Atom("content", Exact, PyStr("AND"), NoConnector);
    AtomChunksOf(Whoosh, a1);
    assert PhraseValue(PyStr("AND")) == Success(PyStr("AND"));
    assert PredicateChunk(Whoosh, a1, PyStr("AND")) == TextChunk("AND");
    assert ConnectorChunks(NoConnector) + [TextChunk("AND")] == [TextChunk("AND")];
    SingleAtomChunks(Whoosh, a1);
    assert ChunksOf(Whoosh, [a1]) == Success([TextChunk("AND")]);
    assert DropLeading([TextChunk("AND")]) == [];
    AtomChunksOf(Solr, a1);
    assert PredicateChunk(Solr, a1, PyStr("AND")) == TextChunk("AND");
    SingleAtomChunks(Solr, a1);
    assert ChunksOf(Solr, [a1]) == Success([TextChunk("AND")]);
    var a2 := Atom("content", Exact, PyStr("OR"), And);
    AtomChunksOf(Solr, a2);
    assert PhraseValue(PyStr("OR")) == Success(PyStr("OR"));
    assert PredicateChunk(Solr, a2, PyStr("OR")) == TextChunk("OR");
    assert ConnectorChunks(And) + [TextChunk("OR")] == [TextChunk("AND"), TextChunk("OR")];
    SingleAtomChunks(Solr, a2);
    assert ChunksOf(Solr, [a2]) == Success([TextChunk("AND"), TextChunk("OR")]);
    assert DropLeading([TextChunk("AND"), TextChunk("OR")]) == [TextChunk("OR")];
    assert Texts([TextChunk("OR")]) == ["OR"];
  }


  /** Every operator template contains the `:` that separates field and value. */
  lemma TemplateHasColon(e: Engine, op: FilterType, f: string, v: string)
    requires op != In
    ensures ':' in RangeTemplate(e, op, f, v)
  {
    var t := RangeTemplate(e, op, f, v);
    if e == Whoosh && (op == Gte || op == Lte) {
      assert t[4 + |f|] == ':';
    } else {
      assert t[|f|] == ':';
    }
  }

  /** A one-chunk list whose text is no connector compiles to exactly that text. */
  lemma OneChunkQuery(e: Engine, atoms: seq<Atom>, t: string)
    requires atoms != [] && ChunksOf(e, atoms) == Success([TextChunk(t)])
    requires t != "AND" && t != "OR"
    ensures Compile(e, atoms, [], []) == Success(t)
  {
    assert DropLeading([TextChunk(t)]) == [TextChunk(t)];
    assert Texts([TextChunk(t)]) == [t];
    assert QueryClause(e, atoms) == Success(t);
    assert Decorate(t, [], []) == t;
  }

  /** A single unconnected atom on a named field compiles to its operator's template. */
  lemma SingleAtom(e: Engine, f: string, op: FilterType, v: string)
    requires f != "content" && op != In && ' ' !in v
    ensures Compile(e, [Atom(f, op, PyStr(v), NoConnector)], [], []) == Success(RangeTemplate(e, op, f, v))
  {
    var a := Atom(f, op, PyStr(v), NoConnector);
    var t := RangeTemplate(e, op, f, v);
    AtomChunksOf(e, a);
    assert PhraseValue(PyStr(v)) == Success(PyStr(v));
    assert PredicateChunk(e, a, PyStr(v)) == TextChunk(t);
    assert ConnectorChunks(NoConnector) + [TextChunk(t)] == [TextChunk(t)];
    SingleAtomChunks(e, a);
    assert ChunksOf(e, [a]) == Success([TextChunk(t)]);
    TemplateHasColon(e, op, f, v);
    assert ':' !in "AND" && ':' !in "OR";
    OneChunkQuery(e, [a], t);
  }


  /** The Whoosh templates: `..` ranges, with `NOT` for the inclusive bounds. */
  lemma WhooshOperatorTemplates(f: string, v: string)
    requires f != "content" && ' ' !in v
    ensures Compile(Whoosh, [Atom(f, Exact, PyStr(v), NoConnector)], [], []) == Success(f + ":" + v)
    ensures Compile(Whoosh, [Atom(f, Gt, PyStr(v), NoConnector)], [], []) == Success(f + ":" + v + "..*")
    ensures Compile(Whoosh, [Atom(f, Gte, PyStr(v), NoConnector)], [], []) == Success("NOT " + f + ":*.." + v)
    ensures Compile(Whoosh, [Atom(f, Lt, PyStr(v), NoConnector)], [], []) == Success(f + ":*.." + v)
    ensures Compile(Whoosh, [Atom(f, Lte, PyStr(v), NoConnector)], [], []) == Success("NOT " + f + ":" + v + "..*")
  {
    SingleAtom(Whoosh, f, Exact, v);
    SingleAtom(Whoosh, f, Gt, v);
    SingleAtom(Whoosh, f, Gte, v);
    SingleAtom(Whoosh, f, Lt, v);
    SingleAtom(Whoosh, f, Lte, v);
  }

  /** The Solr templates: `{}` for exclusive and `[]` for inclusive range bounds. */
  lemma SolrOperatorTemplates(f: string, v: string)
    requires f != "content" && ' ' !in v
    ensures Compile(Solr, [Atom(f, Exact, PyStr(v), NoConnector)], [], []) == Success(f + ":" + v)
    ensures Compile(Solr, [Atom(f, Gt, PyStr(v), NoConnector)], [], []) == Success(f + ":{" + v + " TO *}")
    ensures Compile(Solr, [Atom(f, Gte, PyStr(v), NoConnector)], [], []) == Success(f + ":[" + v + " TO *]")
    ensures Compile(Solr, [Atom(f, Lt, PyStr(v), NoConnector)], [], []) == Success(f + ":{* TO " + v + "}")
    ensures Compile(Solr, [Atom(f, Lte, PyStr(v), NoConnector)], [], []) == Success(f + ":[* TO " + v + "]")
  {
    SingleAtom(Solr, f, Exact, v);
    SingleAtom(Solr, f, Gt, v);
    SingleAtom(Solr, f, Gte, v);
    SingleAtom(Solr, f, Lt, v);
    SingleAtom(Solr, f, Lte, v);
  }

  /** The chunk list of a two-atom filter list. */
  lemma TwoAtomChunks(e: Engine, a1: Atom, a2: Atom)
    requires !a1.value.PyNone? && !a2.value.PyNone?
    ensures ChunksOf(e, [a1, a2]).Success?
    ensures ChunksOf(e, [a1, a2]).value == AtomChunks(e, a1).value + AtomChunks(e, a2).value
  {
    assert [a1, a2][..1] == [a1];
    SingleAtomChunks(e, a1);
  }

  /** A chunk list `p1 AND p2` whose first text is no connector compiles to exactly that text. */
  lemma ThreeChunkQuery(e: Engine, atoms: seq<Atom>, p1: string, p2: string)
    requires atoms != [] && ChunksOf(e, atoms) == Success([TextChunk(p1), TextChunk("AND"), TextChunk(p2)])
    requires p1 != "AND" && p1 != "OR"
    ensures Compile(e, atoms, [], []) == Success(p1 + " AND " + p2)
  {
    var cs := [TextChunk(p1), TextChunk("AND"), TextChunk(p2)];
    assert DropLeading(cs) == cs;
    var ts := [p1, "AND", p2];
    assert Texts(cs) == ts;
    assert forall k :: 0 <= k < |cs| ==> cs[k].TextChunk?;
    assert JoinChunks(cs) == Success(Join(ts, " "));
    JoinAround(p1, p2);
    var q := p1 + " AND " + p2;
    assert QueryClause(e, atoms) == JoinChunks(DropLeading(cs));
    assert QueryClause(e, atoms) == Success(q);
    assert Decorate(q, [], []) == q;
  }

  /** Joining `p1`, `AND`, `p2` with spaces. */
  lemma JoinAround(p1: string, p2: string)
    ensures Join([p1, "AND", p2], " ") == p1 + " AND " + p2
  {
    var ts := [p1, "AND", p2];
    assert ts[1..] == ["AND", p2] && ts[1..][1..] == [p2];
    assert Join(ts, " ") == p1 + " " + ("AND" + " " + p2);
    assert " " + ("AND" + " " + p2) == " AND " + p2;
  }

  /** The chunks of an exact match followed by an `AND`-joined lower-bounded range, on Solr. */
  lemma SolrConjunctionChunks(f1: string, v1: string, f2: string, v2: string)
    requires f1 != "content" && f2 != "content" && ' ' !in v1 && ' ' !in v2
    ensures ChunksOf(Solr, [Atom(f1, Exact, PyStr(v1), NoConnector), Atom(f2, Gte, PyStr(v2), And)])
         == Success([TextChunk(f1 + ":" + v1), TextChunk("AND"), TextChunk(f2 + ":[" + v2 + " TO *]")])
  {
    var a1 := Atom(f1, Exact, PyStr(v1), NoConnector);
    var a2 := Atom(f2, Gte, PyStr(v2), And);
    AtomChunksOf(Solr, a1);
    AtomChunksOf(Solr, a2);
    assert AtomChunks(Solr, a1).value == [TextChunk(f1 + ":" + v1)];
    assert AtomChunks(Solr, a2).value == [TextChunk("AND"), TextChunk(f2 + ":[" + v2 + " TO *]")];
    TwoAtomChunks(Solr, a1, a2);
    assert [TextChunk(f1 + ":" + v1)] + [TextChunk("AND"), TextChunk(f2 + ":[" + v2 + " TO *]")]
        == [TextChunk(f1 + ":" + v1), TextChunk("AND"), TextChunk(f2 + ":[" + v2 + " TO *]")];
  }

  /** A Solr conjunction: an exact match AND a lower-bounded range. */
  lemma SolrConjunction(f1: string, v1: string, f2: string, v2: string)
    requires f1 != "content" && f2 != "content" && ' ' !in v1 && ' ' !in v2
    ensures Compile(Solr, [Atom(f1, Exact, PyStr(v1), NoConnector), Atom(f2, Gte, PyStr(v2), And)], [], [])
         == Success(f1 + ":" + v1 + " AND " + f2 + ":[" + v2 + " TO *]")
  {
    var p1 := f1 + ":" + v1;
    var p2 := f2 + ":[" + v2 + " TO *]";
    SolrConjunctionChunks(f1, v1, f2, v2);
    assert p1[|f1|] == ':';
    assert ':' !in "AND" && ':' !in "OR";
    ThreeChunkQuery(Solr, [Atom(f1, Exact, PyStr(v1), NoConnector), Atom(f2, Gte, PyStr(v2), And)], p1, p2);
    assert p1 + " AND " + p2 == f1 + ":" + v1 + " AND " + f2 + ":[" + v2 + " TO *]";
  }

  /** The `in` operator on a list: one `field:item` per item, OR-ed in parentheses. */
  lemma InOperator(e: Engine, f: string, xs: seq<PyValue>, c: Connector)
    requires f != "content" && PyStr(" ") !in xs
    ensures AtomChunks(e, Atom(f, In, PyList(xs), c)) ==
      Success(ConnectorChunks(c) + [TextChunk("(" + Join(seq(|xs|, k requires 0 <= k < |xs| => f + ":" + ToStr(xs[k])), " OR ") + ")")])
  {
    var ms := Members(PyList(xs));
    assert seq(|ms|, k requires 0 <= k < |ms| => f + ":" + ms[k]) ==
           seq(|xs|, k requires 0 <= k < |xs| => f + ":" + ToStr(xs[k]));
  }

  /** `tag` in `['a', 'b']` compiles to `(tag:a OR tag:b)`. */
  lemma InScenario(e: Engine)
    ensures Compile(e, [Atom("tag", In, PyList([PyStr("a"), PyStr("b")]), NoConnector)], [], [])
         == Success("(tag:a OR tag:b)")
  {
    var a := Atom("tag", In, PyList([PyStr("a"), PyStr("b")]), NoConnector);
    var t := "(tag:a OR tag:b)";
    InScenarioChunks(e);
    SingleAtomChunks(e, a);
    assert t[0] == '(';
    OneChunkQuery(e, [a], t);
  }

  /** The chunks of `tag in [a, b]`. */
  lemma InScenarioChunks(e: Engine)
    ensures AtomChunks(e, Atom("tag", In, PyList([PyStr("a"), PyStr("b")]), NoConnector)) == Success([TextChunk("(tag:a OR tag:b)")])
  {
    TwoMemberGroup(e, "tag", "a", "b");
    assert "(" + "tag" + ":" + "a" + " OR " + "tag" + ":" + "b" + ")" == "(tag:a OR tag:b)";
  }

  /** `f in [x, y]` as one OR group. */
  lemma TwoMemberGroup(e: Engine, f: string, x: string, y: string)
    requires f != "content" && x != " " && y != " "
    ensures AtomChunks(e, Atom(f, In, PyList([PyStr(x), PyStr(y)]), NoConnector))
         == Success([TextChunk("(" + f + ":" + x + " OR " + f + ":" + y + ")")])
  {
    var xs := [PyStr(x), PyStr(y)];
    var a := Atom(f, In, PyList(xs), NoConnector);
    assert PyStr(" ") !in xs;
    AtomChunksOf(e, a);
    assert PhraseValue(PyList(xs)) == Success(PyList(xs));
    assert Members(PyList(xs)) == [x, y];
    InGroupOfTwo(f, x, y);
    var t := "(" + f + ":" + x + " OR " + f + ":" + y + ")";
    assert PredicateChunk(e, a, PyList(xs)) == TextChunk(t);
    assert ConnectorChunks(NoConnector) + [TextChunk(t)] == [TextChunk(t)];
  }

  /** The OR group of two members. */
  lemma InGroupOfTwo(f: string, x: string, y: string)
    ensures InGroup(f, [x, y]) == "(" + f + ":" + x + " OR " + f + ":" + y + ")"
  {
    var opts := seq(|[x, y]|, k requires 0 <= k < |[x, y]| => f + ":" + [x, y][k]);
    assert opts == [f + ":" + x, f + ":" + y];
    assert Join(opts, " OR ") == f + ":" + x + " OR " + (f + ":" + y);
  }

  /** `content` is not a field: its atom contributes the bare (phrase-quoted) value. */
  lemma ContentIsUnqualified(e: Engine, op: FilterType, s: string, c: Connector)
    ensures AtomChunks(e, Atom("content", op, PyStr(s), c)) ==
      Success(ConnectorChunks(c) + [TextChunk(if ' ' in s then "\"" + s + "\"" else s)])
  {
  }

  /** Numbers are stringified before the phrase test, and their text never holds a space. */
  lemma NumbersStringified(n: int, b: bool)
    ensures PhraseValue(PyInt(n)) == Success(PyStr(IntToString(n)))
    ensures PhraseValue(PyBool(b)) == Success(PyStr(if b then "True" else "False"))
  {
    IntToStringNoSpace(n);
    assert ' ' !in "True" && ' ' !in "False";
  }

  /** A text value holding a space becomes a quoted phrase; any other text is kept. */
  lemma PhraseQuoting(s: string)
    ensures PhraseValue(PyStr(s)) == Success(PyStr(if ' ' in s then "\"" + s + "\"" else s))
  {
  }

  /**
   * On a list, `' ' in value` asks whether some item IS a single space: an
   * item that merely contains one leaves the list unquoted.
   */
  lemma ListMembershipTest(xs: seq<PyValue>)
    ensures PhraseValue(PyList(xs)) ==
      Success(if PyStr(" ") in xs then PyStr("\"" + Repr(PyList(xs)) + "\"") else PyList(xs))
    ensures PhraseValue(PyList([PyStr("a b")])) == Success(PyList([PyStr("a b")]))
  {
    assert PyStr(" ") !in [PyStr("a b")] by {
      assert "a b" != " ";
    }
  }

  /** Filters on which the two engines' templates coincide. */
  predicate EngineNeutral(a: Atom) {
    a.field == "content" || a.filterType == Exact || a.filterType == In
  }

  lemma {:induction false} ChunksAgree(atoms: seq<Atom>)
    requires forall k :: 0 <= k < |atoms| ==> EngineNeutral(atoms[k])
    ensures ChunksOf(Whoosh, atoms) == ChunksOf(Solr, atoms)
  {
    if atoms != [] {
      var init := atoms[..|atoms| - 1];
      assert forall k :: 0 <= k < |init| ==> init[k] == atoms[k];
      ChunksAgree(init);
      assert AtomChunks(Whoosh, atoms[|atoms| - 1]) == AtomChunks(Solr, atoms[|atoms| - 1]);
    }
  }

  /**
   * The engines are one algorithm with two strategies: on a non-empty filter
   * list without range operators they compile to the same query.
   */
  lemma EnginesAgreeWithoutRanges(atoms: seq<Atom>, models: seq<ModelRef>, boosts: seq<(string, PyValue)>)
    requires atoms != []
    requires forall k :: 0 <= k < |atoms| ==> EngineNeutral(atoms[k])
    ensures Compile(Whoosh, atoms, models, boosts) == Compile(Solr, atoms, models, boosts)
  {
    ChunksAgree(atoms);
  }

  /**
   * Model restrictions wrap the query as `(q) AND (django_ct_s:"a.m" OR ...)`,
   * boosts follow it as space-separated `word^weight` terms, and with neither
   * the result is exactly the query.
   */
  lemma ModelsAndBoosts(e: Engine, atoms: seq<Atom>, models: seq<ModelRef>, boosts: seq<(string, PyValue)>)
    ensures Compile(e, atoms, models, boosts).Success? <==> Compile(e, atoms, [], []).Success?
    ensures Compile(e, atoms, [], []).Success? ==>
      var q := Compile(e, atoms, [], []).value;
      var r := Compile(e, atoms, models, boosts).value;
      && (models == [] && boosts == [] ==> r == q)
      && (models != [] && boosts == [] ==> r == "(" + q + ") AND (" + Join(ModelClauses(models), " OR ") + ")")
      && (boosts != [] ==> r == Compile(e, atoms, models, []).value + " " + Join(BoostTerms(boosts), " "))
  {
  }
}
