/**
  The SERP request builder: an object with ten optional request fields and an
  allow-list of search engines, filled in through setters or by name, and
  serialised to the key/value list of the request body.
 */
module Serps {
  import opened Wrappers
  import opened PhpValues
  import opened SerpsSpec

  class SerpsRequest {
    var searchEngine: Value
    var region: Value
    var town: Value
    var searchType: Value
    var language: Value
    var maxResults: Value
    var phrase: Value
    var universal: Value
    var strategy: Value
    var parameters: Value
    var supportedSearchEngines: seq<string>

    /** The object's state as a value. */
    function Snapshot(): State
      reads this
    {
      State(searchEngine, region, town, searchType, language, maxResults,
            phrase, universal, strategy, parameters, supportedSearchEngines)
    }

    /** The property initialisers: every field null, the default allow-list. */
    constructor ()
      ensures Snapshot() == Default()
    {
      searchEngine, region, town, searchType, language := Null, Null, Null, Null, Null;
      maxResults, phrase, universal, strategy, parameters := Null, Null, Null, Null, Null;
      supportedSearchEngines := DefaultSearchEngines;
    }

    /**
      `new SerpsRequest($data)`: a fresh object populated from `data`. When
      populating throws, the construction throws and no object is returned.
     */
    static method Create(data: seq<(string, Value)>) returns (r: Result<SerpsRequest, Error>)
      ensures r.Success? ==> fresh(r.value) && ApplyAll(Default(), data) == (r.value.Snapshot(), Pass)
      ensures r.Failure? ==> ApplyAll(Default(), data).1 == Fail(r.error)
    {
      var request := new SerpsRequest();
      var outcome := request.Populate(data);
      if outcome.Fail? {
        return Failure(outcome.error);
      }
      return Success(request);
    }

    /** Applies the entries in order; the first that throws ends the call, with no roll-back. */
    method Populate(data: seq<(string, Value)>) returns (outcome: Outcome)
      modifies this
      ensures (Snapshot(), outcome) == ApplyAll(old(Snapshot()), data)
    {
      var i := 0;
      while i < |data|
        invariant 0 <= i <= |data|
        invariant ApplyAll(old(Snapshot()), data) == ApplyAll(Snapshot(), data[i..])
      {
        assert data[i..][1..] == data[i + 1..];
        outcome := PopulateField(data[i].0, data[i].1);
        if outcome.Fail? {
          return;
        }
        i := i + 1;
      }
      return Pass;
    }

    /** Calls the setter the name selects; an unknown name throws OutOfBounds. */
    method PopulateField(field: string, value: Value) returns (outcome: Outcome)
      modifies this
      ensures (Snapshot(), outcome) == Settle(old(Snapshot()), ApplyField(old(Snapshot()), field, value))
    {
      ghost var before := Snapshot();
      if field == "search_engine" {
        assert Dispatch(field) == Some(SearchEngine);
        outcome := SetSearchEngine(value);
        return;
      }
      if field == "region" {
        assert ApplyField(before, field, value) == Success(before.(region := value));
        SetRegion(value);
        return Pass;
      }
      if field == "town" {
        assert ApplyField(before, field, value) == Success(before.(town := value));
        SetTown(value);
        return Pass;
      }
      if field == "search_type " {
        assert ApplyField(before, field, value) == Success(before.(searchType := value));
        SetSearchType(value);
        return Pass;
      }
      if field == "language" {
        assert ApplyField(before, field, value) == Success(before.(language := value));
        SetLanguage(value);
        return Pass;
      }
      if field == "max_results" {
        assert ApplyField(before, field, value) == Success(before.(maxResults := value));
        SetMaxResults(value);
        return Pass;
      }
      if field == "phrase" {
        assert ApplyField(before, field, value) == Success(before.(phrase := value));
        SetPhrase(value);
        return Pass;
      }
      if field == "universal" {
        assert ApplyField(before, field, value) == Success(before.(universal := value));
        SetUniversal(value);
        return Pass;
      }
      if field == "strategy" {
        assert ApplyField(before, field, value) == Success(before.(strategy := value));
        SetStrategy(value);
        return Pass;
      }
      if field == "parameters" {
        assert Dispatch(field) == Some(Parameters);
        // setParameters declares its parameter as `array`
        if !value.Arr? {
          return Fail(TypeError);
        }
        SetParameters(value.entries);
        return Pass;
      }
      assert Dispatch(field) == None;
      return Fail(OutOfBounds(UnsupportedFieldMessage(field)));
    }

    /**
      `__toString`: walks the properties in declaration order, skips the
      allow-list and every value loosely equal to null. Only reads the object.
     */
    method ToString() returns (payload: seq<(string, Value)>)
      ensures payload == Payload(Snapshot())
    {
      var vars := Vars(Snapshot());
      payload := [];
      var i := 0;
      while i < |vars|
        invariant 0 <= i <= |vars|
        invariant payload == Filter(vars[..i])
      {
        assert vars[..i + 1][..i] == vars[..i];
        var (variable, value) := vars[i];
        if variable != AllowListName && !LooselyNull(value) {
          payload := payload + [(variable, value)];
        }
        i := i + 1;
      }
      assert vars[..i] == vars;
    }

    /** Accepts the engine only if it is in the current allow-list. */
    method SetSearchEngine(value: Value) returns (outcome: Outcome)
      modifies this
      ensures outcome.Pass? <==> InAllowList(value, old(supportedSearchEngines))
      ensures outcome.Pass? ==> Snapshot() == old(Snapshot()).(searchEngine := value)
      ensures outcome.Fail? ==>
                outcome.error == InvalidArgument(UnsupportedEngineMessage) && Snapshot() == old(Snapshot())
    {
      var engines := GetSupportedSearchEngines();
      if !InAllowList(value, engines) {
        return Fail(InvalidArgument(UnsupportedEngineMessage));
      }
      searchEngine := value;
      return Pass;
    }

    method SetRegion(value: Value)
      modifies this
      ensures Snapshot() == old(Snapshot()).(region := value)
    {
      region := value;
    }

    method SetTown(value: Value)
      modifies this
      ensures Snapshot() == old(Snapshot()).(town := value)
    {
      town := value;
    }

    method SetSearchType(value: Value)
      modifies this
      ensures Snapshot() == old(Snapshot()).(searchType := value)
    {
      searchType := value;
    }

    method SetLanguage(value: Value)
      modifies this
      ensures Snapshot() == old(Snapshot()).(language := value)
    {
      language := value;
    }

    method SetMaxResults(value: Value)
      modifies this
      ensures Snapshot() == old(Snapshot()).(maxResults := value)
    {
      maxResults := value;
    }

    method SetPhrase(value: Value)
      modifies this
      ensures Snapshot() == old(Snapshot()).(phrase := value)
    {
      phrase := value;
    }

    method SetUniversal(value: Value)
      modifies this
      ensures Snapshot() == old(Snapshot()).(universal := value)
    {
      universal := value;
    }

    method SetStrategy(value: Value)
      modifies this
      ensures Snapshot() == old(Snapshot()).(strategy := value)
    {
      strategy := value;
    }

    /** Stores the strategy configuration array as it is. */
    method SetParameters(entries: seq<(Key, Value)>)
      modifies this
      ensures Snapshot() == old(Snapshot()).(parameters := Arr(entries))
    {
      parameters := Arr(entries);
    }

    method GetSupportedSearchEngines() returns (engines: seq<string>)
      ensures engines == Snapshot().supportedSearchEngines
    {
      engines := supportedSearchEngines;
    }

    /** Replaces the allow-list; an engine accepted earlier stays as it is. */
    method SetSupportedSearchEngines(engines: seq<string>)
      modifies this
      ensures Snapshot() == old(Snapshot()).(supportedSearchEngines := engines)
    {
      supportedSearchEngines := engines;
    }
  }
}
