/**
  What the request builder promises: which field each operation changes, how
  far `populate` gets, why `search_type` cannot be set by name, and what the
  serialised payload holds and in which order.
 */
module SerpsProperties {
  import opened Wrappers
  import opened PhpValues
  import opened SerpsSpec

  // ---------------------------------------------------------------------------
  // Field names and the dispatcher

  /** Distinct fields have distinct property names. */
  lemma {:induction false} NameInjective(f: Field, g: Field)
    ensures Name(f) == Name(g) ==> f == g
  {
  }

  /** Every field is listed in declaration order. */
  lemma {:induction false} FieldsComplete(f: Field)
    ensures f in Fields
  {
  }

  /** Looking a name up finds the field that carries it, and only that one. */
  lemma {:induction false} FieldNamedIff(name: string, f: Field)
    ensures FieldNamed(name) == Some(f) <==> Name(f) == name
  {
    if FieldNamed(name).Some? {
      NameInjective(f, FieldNamed(name).value);
    }
  }

  /** Looking a field up by its own property name finds it. */
  lemma {:induction false} FieldNamedName(f: Field)
    ensures FieldNamed(Name(f)) == Some(f)
  {
    FieldNamedIff(Name(f), f);
  }

  /** The name the dispatcher matches for each field. */
  function DispatchKey(f: Field): string {
    if f == SearchType then "search_type " else Name(f)
  }

  /** The dispatcher recognises exactly one key per field. */
  lemma {:induction false} DispatchKeys(field: string)
    ensures Dispatch(field).Some? ==> DispatchKey(Dispatch(field).value) == field
    ensures forall f :: DispatchKey(f) == field ==> Dispatch(field) == Some(f)
  {
  }

  /** The dispatcher rejects the property name "search_type" and accepts "search_type " instead. */
  lemma {:induction false} DispatchSearchType()
    ensures Dispatch("search_type") == None && FieldNamed("search_type") == Some(SearchType)
    ensures Dispatch("search_type ") == Some(SearchType) && FieldNamed("search_type ") == None
  {
    FieldNamedName(SearchType);
    if FieldNamed("search_type ").Some? {
      FieldNamedIff("search_type ", FieldNamed("search_type ").value);
    }
  }

  /** Apart from that one key, the dispatcher recognises exactly the property names. */
  lemma {:induction false} DispatchAgreesWithPropertyNames(field: string)
    requires field != "search_type" && field != "search_type "
    ensures Dispatch(field) == FieldNamed(field)
  {
    DispatchKeys(field);
    match Dispatch(field)
    case Some(f) =>
      assert f != SearchType;
      FieldNamedIff(field, f);
    case None =>
      if FieldNamed(field).Some? {
        var g := FieldNamed(field).value;
        FieldNamedIff(field, g);
        assert DispatchKey(g) == field;
      }
  }

  // ---------------------------------------------------------------------------
  // populateField and the setters

  /** An unknown name throws OutOfBounds naming the field, and the state is not touched. */
  lemma {:induction false} UnknownFieldRejected(s: State, field: string, v: Value)
    requires Dispatch(field).None?
    ensures ApplyField(s, field, v) == Failure(OutOfBounds("SERPS call does not support the parameter " + field))
    ensures Settle(s, ApplyField(s, field, v)).0 == s
  {
  }

  /** A successful call assigns exactly the dispatched field; nothing else changes. */
  lemma {:induction false} ApplyFieldChangesOneField(s: State, field: string, v: Value)
    requires ApplyField(s, field, v).Success?
    ensures Dispatch(field).Some?
    ensures Get(ApplyField(s, field, v).value, Dispatch(field).value) == v
    ensures forall g :: g != Dispatch(field).value ==> Get(ApplyField(s, field, v).value, g) == Get(s, g)
    ensures ApplyField(s, field, v).value.supportedSearchEngines == s.supportedSearchEngines
  {
    var f := Dispatch(field).value;
    assert ApplyField(s, field, v) == Assign(s, f, v);
    forall g | g != f
      ensures Get(ApplyField(s, field, v).value, g) == Get(s, g)
    {
      SetKeepsOthers(s, f, v, g);
    }
  }

  /**
    Whether the setter `f` accepts `v` under the allow-list `engines`: the
    condition under which `SerpsSpec.Assign` succeeds, restated on its own so
    that it can be quantified over; ApplyFieldSucceeds proves the two agree.
   */
  predicate Accepts(engines: seq<string>, f: Field, v: Value) {
    match f
    case SearchEngine => InAllowList(v, engines)
    case Parameters => v.Arr?
    case _ => true
  }

  /** setSearchEngine succeeds iff the value is in the current allow-list; otherwise it throws InvalidArgument. */
  lemma {:induction false} SearchEngineChecked(s: State, v: Value)
    ensures Assign(s, SearchEngine, v).Success? <==> v.Str? && v.s in s.supportedSearchEngines
    ensures Assign(s, SearchEngine, v).Failure? ==>
              Assign(s, SearchEngine, v).error == InvalidArgument("Search Engine is not supported")
  {
  }

  /** A call succeeds iff the name is dispatched and that setter accepts the value. */
  lemma {:induction false} ApplyFieldSucceeds(s: State, field: string, v: Value)
    ensures ApplyField(s, field, v).Success? <==>
              Dispatch(field).Some? && Accepts(s.supportedSearchEngines, Dispatch(field).value, v)
  {
  }

  /** Whatever the dispatcher accepts for search_engine was in the allow-list at that moment. */
  lemma {:induction false} AcceptedEngineWasAllowed(s: State, field: string, v: Value)
    requires ApplyField(s, field, v).Success?
    requires ApplyField(s, field, v).value.searchEngine != s.searchEngine
    ensures field == "search_engine"
    ensures InAllowList(ApplyField(s, field, v).value.searchEngine, s.supportedSearchEngines)
  {
  }

  /** The default allow-list rejects "altavista"; once the list is replaced by ["altavista"], it is accepted. */
  lemma {:induction false} AllowListScenario()
    ensures Default().supportedSearchEngines == ["bing", "google", "yahoo", "yandex"]
    ensures ApplyField(Default(), "search_engine", Str("altavista")).Failure?
    ensures ApplyField(Default().(supportedSearchEngines := ["altavista"]), "search_engine", Str("altavista")).Success?
  {
    assert "altavista" !in DefaultSearchEngines;
  }

  /** "search_type", the property's own name, always throws; only "search_type " reaches the setter. */
  lemma {:induction false} SearchTypeNotByName(s: State, v: Value)
    ensures Name(SearchType) == "search_type"
    ensures ApplyField(s, "search_type", v) == Failure(OutOfBounds(UnsupportedFieldMessage("search_type")))
    ensures ApplyField(s, "search_type ", v) == Success(s.(searchType := v))
  {
    DispatchSearchType();
  }

  /** Only the key "search_type " can change search_type through the dispatcher. */
  lemma {:induction false} OnlyPaddedKeySetsSearchType(s: State, field: string, v: Value)
    requires ApplyField(s, field, v).Success?
    requires ApplyField(s, field, v).value.searchType != s.searchType
    ensures field == "search_type "
  {
  }

  /** A setter keeps the two validated fields well typed. */
  lemma {:induction false} AssignWellTyped(s: State, f: Field, v: Value)
    requires WellTyped(s)
    requires Assign(s, f, v).Success?
    ensures WellTyped(Assign(s, f, v).value)
  {
    if f != SearchEngine {
      SetKeepsOthers(s, f, v, SearchEngine);
    }
    if f != Parameters {
      SetKeepsOthers(s, f, v, Parameters);
    }
  }

  /** The dispatcher keeps the two validated fields well typed. */
  lemma {:induction false} ApplyFieldWellTyped(s: State, field: string, v: Value)
    requires WellTyped(s)
    ensures WellTyped(Settle(s, ApplyField(s, field, v)).0)
  {
    match Dispatch(field)
    case None =>
    case Some(f) =>
      if Assign(s, f, v).Success? {
        AssignWellTyped(s, f, v);
      }
  }

  // ---------------------------------------------------------------------------
  // populate

  /** populate never changes the allow-list. */
  lemma {:induction false} ApplyAllKeepsAllowList(s: State, data: seq<(string, Value)>)
    ensures ApplyAll(s, data).0.supportedSearchEngines == s.supportedSearchEngines
    decreases |data|
  {
    if data != [] {
      match ApplyField(s, data[0].0, data[0].1)
      case Failure(_) =>
      case Success(s') => ApplyAllKeepsAllowList(s', data[1..]);
    }
  }

  /** Populating `a + b` is populating `a`, then `b` if `a` went through. */
  lemma {:induction false} ApplyAllConcat(s: State, a: seq<(string, Value)>, b: seq<(string, Value)>)
    ensures ApplyAll(s, a + b) ==
              if ApplyAll(s, a).1.Pass? then ApplyAll(ApplyAll(s, a).0, b) else ApplyAll(s, a)
    decreases |a|
  {
    if a == [] {
      assert a + b == b;
    } else {
      assert (a + b)[0] == a[0];
      assert (a + b)[1..] == a[1..] + b;
      match ApplyField(s, a[0].0, a[0].1)
      case Failure(_) =>
      case Success(s') => ApplyAllConcat(s', a[1..], b);
    }
  }

  /**
    When the entry after `applied` throws, populate ends there: the entries
    before it stay applied and none after it is applied.
   */
  lemma {:induction false} ApplyAllStopsAtFailure(s: State, applied: seq<(string, Value)>, entry: (string, Value), rest: seq<(string, Value)>)
    requires ApplyAll(s, applied).1 == Pass
    requires ApplyField(ApplyAll(s, applied).0, entry.0, entry.1).Failure?
    ensures ApplyAll(s, applied + [entry] + rest) ==
              (ApplyAll(s, applied).0, Fail(ApplyField(ApplyAll(s, applied).0, entry.0, entry.1).error))
  {
    assert applied + [entry] + rest == applied + ([entry] + rest);
    ApplyAllConcat(s, applied, [entry] + rest);
  }

  /**
    A populate that throws stopped at some entry k: the state left behind is
    the one after entries 0..k-1, and entry k threw the error reported.
   */
  lemma {:induction false} ApplyAllFailureLocated(s: State, data: seq<(string, Value)>)
    requires ApplyAll(s, data).1.Fail?
    ensures exists k :: 0 <= k < |data| && ApplyAll(s, data[..k]) == (ApplyAll(s, data).0, Pass)
              && ApplyField(ApplyAll(s, data).0, data[k].0, data[k].1) == Failure(ApplyAll(s, data).1.error)
    decreases |data|
  {
    var (last, outcome) := ApplyAll(s, data);
    match ApplyField(s, data[0].0, data[0].1)
    case Failure(e) =>
      assert data[..0] == [];
      assert ApplyAll(s, data[..0]) == (last, Pass);
    case Success(s') =>
      var rest := data[1..];
      assert ApplyAll(s', rest) == (last, outcome);
      ApplyAllFailureLocated(s', rest);
      var k :| 0 <= k < |rest| && ApplyAll(s', rest[..k]) == (last, Pass)
                && ApplyField(last, rest[k].0, rest[k].1) == Failure(outcome.error);
      var prefix := data[..k + 1];
      assert prefix[0] == data[0] && prefix[1..] == rest[..k];
      assert ApplyAll(s, prefix) == (last, Pass);
      assert data[k + 1] == rest[k];
  }

  /**
    populate goes through iff every key is dispatched and every value is
    accepted by its setter (the allow-list does not change on the way).
   */
  lemma {:induction false} ApplyAllSucceeds(s: State, data: seq<(string, Value)>)
    ensures ApplyAll(s, data).1.Pass? <==>
              forall i :: 0 <= i < |data| ==>
                Dispatch(data[i].0).Some? && Accepts(s.supportedSearchEngines, Dispatch(data[i].0).value, data[i].1)
    decreases |data|
  {
    if data != [] {
      ApplyFieldSucceeds(s, data[0].0, data[0].1);
      match ApplyField(s, data[0].0, data[0].1)
      case Failure(_) =>
      case Success(s') =>
        ApplyAllSucceeds(s', data[1..]);
        assert s'.supportedSearchEngines == s.supportedSearchEngines;
        assert forall i :: 1 <= i < |data| ==> data[i] == data[1..][i - 1];
    }
  }

  /** Without the padded key "search_type ", populate never changes search_type. */
  lemma {:induction false} ApplyAllKeepsSearchType(s: State, data: seq<(string, Value)>)
    requires forall i :: 0 <= i < |data| ==> data[i].0 != "search_type "
    ensures ApplyAll(s, data).0.searchType == s.searchType
    decreases |data|
  {
    if data != [] {
      match ApplyField(s, data[0].0, data[0].1)
      case Failure(_) =>
      case Success(s') =>
        if s'.searchType != s.searchType {
          OnlyPaddedKeySetsSearchType(s, data[0].0, data[0].1);
        }
        ApplyAllKeepsSearchType(s', data[1..]);
    }
  }

  /** populate keeps the two validated fields well typed, whether or not it throws. */
  lemma {:induction false} ApplyAllWellTyped(s: State, data: seq<(string, Value)>)
    requires WellTyped(s)
    ensures WellTyped(ApplyAll(s, data).0)
    decreases |data|
  {
    if data != [] {
      ApplyFieldWellTyped(s, data[0].0, data[0].1);
      match ApplyField(s, data[0].0, data[0].1)
      case Failure(_) =>
      case Success(s') => ApplyAllWellTyped(s', data[1..]);
    }
  }

  // ---------------------------------------------------------------------------
  // __toString

  /** A property is in the filtered list iff it is in the input and is kept. */
  lemma {:induction false} FilterMembers(vars: seq<(string, Value)>, p: (string, Value))
    ensures p in Filter(vars) <==> p in vars && Kept(p)
    decreases |vars|
  {
    if vars != [] {
      var init := vars[..|vars| - 1];
      FilterMembers(init, p);
      assert vars == init + [vars[|vars| - 1]];
    }
  }

  /** `a` is `b` with some elements left out, the rest in their order. */
  predicate Subsequence(a: seq<(string, Value)>, b: seq<(string, Value)>)
    decreases |b|
  {
    if a == [] then true
    else if b == [] then false
    else if a[|a| - 1] == b[|b| - 1] then Subsequence(a[..|a| - 1], b[..|b| - 1])
    else Subsequence(a, b[..|b| - 1])
  }

  /** Filtering keeps the order of what it keeps. */
  lemma {:induction false} FilterSubsequence(vars: seq<(string, Value)>)
    ensures Subsequence(Filter(vars), vars)
    decreases |vars|
  {
    if vars != [] {
      var init := vars[..|vars| - 1];
      var last := vars[|vars| - 1];
      FilterSubsequence(init);
      if Kept(last) {
        assert Filter(vars) == Filter(init) + [last];
        assert Filter(vars)[..|Filter(vars)| - 1] == Filter(init);
      } else {
        assert Filter(vars) == Filter(init);
        if Filter(init) != [] {
          var end := Filter(init)[|Filter(init)| - 1];
          FilterMembers(init, end);
          assert end != last;
        }
      }
    }
  }

  /** The payload never holds the allow-list. */
  lemma {:induction false} PayloadOmitsAllowList(s: State, p: (string, Value))
    requires p in Payload(s)
    ensures p.0 != "supportedSearchEngines"
  {
    FilterMembers(Vars(s), p);
  }

  /** No request field is called like the allow-list property. */
  lemma {:induction false} AllowListNotAField(f: Field)
    ensures Name(f) != AllowListName
  {
  }

  /** The properties `get_object_vars` reports: the ten fields under their names, and the allow-list. */
  lemma {:induction false} VarsMembers(s: State, p: (string, Value))
    ensures p in Vars(s) <==>
              (FieldNamed(p.0).Some? && p.1 == Get(s, FieldNamed(p.0).value))
              || p == (AllowListName, StringList(s.supportedSearchEngines))
  {
    var fieldVars := Vars(s)[..|Fields|];
    assert Vars(s) == fieldVars + [(AllowListName, StringList(s.supportedSearchEngines))];
    if FieldNamed(p.0).Some? {
      var f := FieldNamed(p.0).value;
      FieldNamedIff(p.0, f);
      FieldsComplete(f);
      var i :| 0 <= i < |Fields| && Fields[i] == f;
      assert fieldVars[i] == (Name(f), Get(s, f));
    }
    if p in fieldVars {
      var i :| 0 <= i < |fieldVars| && fieldVars[i] == p;
      FieldNamedName(Fields[i]);
    }
  }

  /**
    The payload holds exactly the fields whose value is not loosely equal to
    null, each under its property name with its current value.
   */
  lemma {:induction false} PayloadMembers(s: State, key: string, v: Value)
    ensures (key, v) in Payload(s) <==>
              FieldNamed(key).Some? && v == Get(s, FieldNamed(key).value) && !LooselyNull(v)
  {
    FilterMembers(Vars(s), (key, v));
    VarsMembers(s, (key, v));
    if FieldNamed(key).Some? {
      AllowListNotAField(FieldNamed(key).value);
      FieldNamedIff(key, FieldNamed(key).value);
    }
  }

  /** The payload lists its keys in property declaration order. */
  lemma {:induction false} PayloadInDeclarationOrder(s: State)
    ensures Subsequence(Payload(s), Vars(s))
    ensures forall i :: 0 <= i < |Fields| ==> Vars(s)[i] == (Name(Fields[i]), Get(s, Fields[i]))
  {
    FilterSubsequence(Vars(s));
  }

  /** A request built from an empty array serialises to an empty list. */
  lemma {:induction false} DefaultPayloadEmpty()
    ensures Payload(Default()) == []
  {
    if Payload(Default()) != [] {
      var p := Payload(Default())[0];
      PayloadMembers(Default(), p.0, p.1);
      assert false;
    }
  }

  /**
    Replacing the allow-list changes no field and nothing in the payload, so
    an engine accepted earlier is still sent.
   */
  lemma {:induction false} AllowListNotSerialized(s: State, engines: seq<string>)
    ensures forall f :: Get(s.(supportedSearchEngines := engines), f) == Get(s, f)
    ensures Payload(s.(supportedSearchEngines := engines)) == Payload(s)
  {
    var t := s.(supportedSearchEngines := engines);
    var n := |Fields|;
    assert Vars(t)[..n] == Vars(s)[..n];
    FilterPrefix(Vars(s), n + 1);
    FilterPrefix(Vars(t), n + 1);
    assert Vars(s)[..n + 1] == Vars(s);
    assert Vars(t)[..n + 1] == Vars(t);
  }

  /** No two entries of `vars` share a key. */
  predicate KeysDistinct(vars: seq<(string, Value)>) {
    forall i, j :: 0 <= i < j < |vars| ==> vars[i].0 != vars[j].0
  }

  /** Filtering keeps keys distinct. */
  lemma {:induction false} FilterKeysDistinct(vars: seq<(string, Value)>)
    requires KeysDistinct(vars)
    ensures KeysDistinct(Filter(vars))
    decreases |vars|
  {
    if vars != [] {
      var init := vars[..|vars| - 1];
      var last := vars[|vars| - 1];
      FilterKeysDistinct(init);
      if Kept(last) {
        assert Filter(vars) == Filter(init) + [last];
        forall i | 0 <= i < |Filter(init)|
          ensures Filter(init)[i].0 != last.0
        {
          FilterMembers(init, Filter(init)[i]);
        }
      } else {
        assert Filter(vars) == Filter(init);
      }
    }
  }

  /** The properties walked by the serialiser have distinct names. */
  lemma {:induction false} VarsKeysDistinct(s: State)
    ensures KeysDistinct(Vars(s))
  {
    var vars := Vars(s);
    forall i, j | 0 <= i < j < |vars|
      ensures vars[i].0 != vars[j].0
    {
      if j < |Fields| {
        NameInjective(Fields[i], Fields[j]);
      } else {
        AllowListNotAField(Fields[i]);
      }
    }
  }

  /** Every key appears at most once in the payload, as in the keyed PHP array it is built in. */
  lemma {:induction false} PayloadKeysDistinct(s: State)
    ensures KeysDistinct(Payload(s))
  {
    VarsKeysDistinct(s);
    FilterKeysDistinct(Vars(s));
  }

  /** Filtering a prefix one element longer adds at most that element. */
  lemma {:induction false} FilterPrefix(vars: seq<(string, Value)>, k: nat)
    requires 0 < k <= |vars|
    ensures Filter(vars[..k]) == Filter(vars[..k - 1]) + (if Kept(vars[k - 1]) then [vars[k - 1]] else [])
  {
    assert vars[..k][..k - 1] == vars[..k - 1];
  }

  /** Filtering past elements that are all dropped adds nothing. */
  lemma {:induction false} FilterSkipsDropped(vars: seq<(string, Value)>, i: nat, j: nat)
    requires i <= j <= |vars|
    requires forall k :: i <= k < j ==> !Kept(vars[k])
    ensures Filter(vars[..j]) == Filter(vars[..i])
    decreases j - i
  {
    if i < j {
      FilterPrefix(vars, j);
      FilterSkipsDropped(vars, i, j - 1);
    }
  }

  /** In such a request, every property but search_engine and max_results is dropped. */
  lemma {:induction false} OthersDropped(s: State, k: nat)
    requires forall f :: f != SearchEngine && f != MaxResults ==> Get(s, f) == Null
    requires k <= |Fields|
    requires k < |Fields| ==> Fields[k] != SearchEngine && Fields[k] != MaxResults
    ensures !Kept(Vars(s)[k])
  {
    if k < |Fields| {
      assert Vars(s)[k] == (Name(Fields[k]), Get(s, Fields[k]));
    }
  }

  /** Filtering a list in which exactly two elements are kept gives those two, in order. */
  lemma {:induction false} FilterTwoKept(vars: seq<(string, Value)>, i: nat, j: nat)
    requires i < j < |vars|
    requires Kept(vars[i]) && Kept(vars[j])
    requires forall k :: 0 <= k < |vars| && k != i && k != j ==> !Kept(vars[k])
    ensures Filter(vars) == [vars[i], vars[j]]
  {
    assert Filter(vars[..i]) == [] by {
      assert vars[..0] == [];
      FilterSkipsDropped(vars, 0, i);
    }
    assert Filter(vars[..i + 1]) == [vars[i]] by {
      FilterPrefix(vars, i + 1);
    }
    assert Filter(vars[..j]) == [vars[i]] by {
      FilterSkipsDropped(vars, i + 1, j);
    }
    assert Filter(vars[..j + 1]) == [vars[i], vars[j]] by {
      FilterPrefix(vars, j + 1);
    }
    FilterSkipsDropped(vars, j + 1, |vars|);
    assert vars[..|vars|] == vars;
  }

  /** A request whose only set fields are search_engine and max_results serialises to those two, in that order. */
  lemma {:induction false} EngineAndMaxResultsPayload(s: State)
    requires !LooselyNull(s.searchEngine) && !LooselyNull(s.maxResults)
    requires forall f :: f != SearchEngine && f != MaxResults ==> Get(s, f) == Null
    ensures Payload(s) == [("search_engine", s.searchEngine), ("max_results", s.maxResults)]
  {
    var vars := Vars(s);
    // the positions of search_engine and max_results among the properties
    var engineAt, maxResultsAt := 0, 5;
    assert Fields[engineAt] == SearchEngine && Fields[maxResultsAt] == MaxResults;
    forall k | 0 <= k < |vars| && k != engineAt && k != maxResultsAt
      ensures !Kept(vars[k])
    {
      OthersDropped(s, k);
    }
    FilterTwoKept(vars, engineAt, maxResultsAt);
  }

  /** The request of the scenario below: search_engine "bing" and max_results 5, nothing else. */
  function BingFive(): State {
    Default().(searchEngine := Str("bing"), maxResults := Int(5))
  }

  /**
    populate({search_engine: "bing", max_results: 5}) on a fresh request sets
    exactly those two fields, and the request serialises to those two entries.
   */
  lemma {:induction false} PopulateScenario()
    ensures ApplyAll(Default(), [("search_engine", Str("bing")), ("max_results", Int(5))]) == (BingFive(), Pass)
    ensures Payload(BingFive()) == [("search_engine", Str("bing")), ("max_results", Int(5))]
  {
    EngineAndMaxResultsPayload(BingFive());
    var data := [("search_engine", Str("bing")), ("max_results", Int(5))];
    assert "bing" in DefaultSearchEngines;
    var s1 := Default().(searchEngine := Str("bing"));
    assert ApplyField(Default(), data[0].0, data[0].1) == Success(s1);
    assert data[1..] == [("max_results", Int(5))];
  }

  /**
    populateField(f, v) followed by serialisation shows {f: v} when the setter
    accepts v and v is not loosely null: for every field but search_type,
    whose own name the dispatcher rejects.
   */
  lemma {:induction false} PopulateThenSerialize(s: State, f: Field, v: Value)
    requires f != SearchType
    requires Accepts(s.supportedSearchEngines, f, v)
    requires !LooselyNull(v)
    ensures ApplyField(s, Name(f), v).Success?
    ensures (Name(f), v) in Payload(ApplyField(s, Name(f), v).value)
  {
    DispatchKeys(Name(f));
    var s' := ApplyField(s, Name(f), v).value;
    FieldNamedName(f);
    PayloadMembers(s', Name(f), v);
  }
}
