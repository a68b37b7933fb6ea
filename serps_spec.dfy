/**
  The state of a SERP request and what each operation of the request builder
  does to it, as functions on values. The class `Serps.SerpsRequest` is proved
  against these functions; `SerpsProperties` proves what they promise.
 */
module SerpsSpec {
  import opened Wrappers
  import opened PhpValues

  /** The ten request fields. */
  datatype Field =
    | SearchEngine
    | Region
    | Town
    | SearchType
    | Language
    | MaxResults
    | Phrase
    | Universal
    | Strategy
    | Parameters

  /** The property name of a field, which is also its key in the payload. */
  function Name(f: Field): string {
    match f
    case SearchEngine => "search_engine"
    case Region => "region"
    case Town => "town"
    case SearchType => "search_type"
    case Language => "language"
    case MaxResults => "max_results"
    case Phrase => "phrase"
    case Universal => "universal"
    case Strategy => "strategy"
    case Parameters => "parameters"
  }

  /** The fields in the order their properties are declared. */
  const Fields: seq<Field> :=
    [SearchEngine, Region, Town, SearchType, Language, MaxResults, Phrase, Universal, Strategy, Parameters]

  /** The property holding the allow-list, declared after the ten fields. */
  const AllowListName: string := "supportedSearchEngines"

  /** The initial allow-list. */
  const DefaultSearchEngines: seq<string> := ["bing", "google", "yahoo", "yandex"]

  /** The exceptions the builder raises. */
  datatype Error =
    | OutOfBounds(message: string)      // an unknown field name
    | InvalidArgument(message: string)  // a search engine outside the allow-list
    | TypeError                         // a non-array for the `array` parameter of setParameters

  /** How a mutating call ends: normally, or by throwing. */
  datatype Outcome = Pass | Fail(error: Error)

  function UnsupportedFieldMessage(field: string): string {
    "SERPS call does not support the parameter " + field
  }

  const UnsupportedEngineMessage: string := "Search Engine is not supported"

  /** Everything a request object holds. */
  datatype State = State(
    searchEngine: Value,
    region: Value,
    town: Value,
    searchType: Value,
    language: Value,
    maxResults: Value,
    phrase: Value,
    universal: Value,
    strategy: Value,
    parameters: Value,
    supportedSearchEngines: seq<string>)

  /** A fresh object: every field null, the default allow-list. */
  function Default(): State {
    State(Null, Null, Null, Null, Null, Null, Null, Null, Null, Null, DefaultSearchEngines)
  }

  function Get(s: State, f: Field): Value {
    match f
    case SearchEngine => s.searchEngine
    case Region => s.region
    case Town => s.town
    case SearchType => s.searchType
    case Language => s.language
    case MaxResults => s.maxResults
    case Phrase => s.phrase
    case Universal => s.universal
    case Strategy => s.strategy
    case Parameters => s.parameters
  }

  /** Assigns one field; the allow-list keeps its value (and every other field, see SetKeepsOthers). */
  function Set(s: State, f: Field, v: Value): (r: State)
    ensures Get(r, f) == v
    ensures r.supportedSearchEngines == s.supportedSearchEngines
  {
    match f
    case SearchEngine => s.(searchEngine := v)
    case Region => s.(region := v)
    case Town => s.(town := v)
    case SearchType => s.(searchType := v)
    case Language => s.(language := v)
    case MaxResults => s.(maxResults := v)
    case Phrase => s.(phrase := v)
    case Universal => s.(universal := v)
    case Strategy => s.(strategy := v)
    case Parameters => s.(parameters := v)
  }

  /** Assigning one field leaves every other field as it was. */
  lemma {:induction false} SetKeepsOthers(s: State, f: Field, v: Value, g: Field)
    requires g != f
    ensures Get(Set(s, f, v), g) == Get(s, g)
  {
  }

  /** `in_array` on the allow-list, with strict comparison. */
  predicate InAllowList(v: Value, engines: seq<string>) {
    v.Str? && v.s in engines
  }

  /**
    The field whose setter `populateField` calls for a given name, as the
    dispatcher is written: note the key "search_type " with a trailing space.
   */
  function Dispatch(field: string): Option<Field> {
    if field == "search_engine" then Some(SearchEngine)
    else if field == "region" then Some(Region)
    else if field == "town" then Some(Town)
    else if field == "search_type " then Some(SearchType)
    else if field == "language" then Some(Language)
    else if field == "max_results" then Some(MaxResults)
    else if field == "phrase" then Some(Phrase)
    else if field == "universal" then Some(Universal)
    else if field == "strategy" then Some(Strategy)
    else if field == "parameters" then Some(Parameters)
    else None
  }

  /** The field whose property is called `name`, if there is one. */
  function FieldNamed(name: string): Option<Field> {
    if name == Name(SearchEngine) then Some(SearchEngine)
    else if name == Name(Region) then Some(Region)
    else if name == Name(Town) then Some(Town)
    else if name == Name(SearchType) then Some(SearchType)
    else if name == Name(Language) then Some(Language)
    else if name == Name(MaxResults) then Some(MaxResults)
    else if name == Name(Phrase) then Some(Phrase)
    else if name == Name(Universal) then Some(Universal)
    else if name == Name(Strategy) then Some(Strategy)
    else if name == Name(Parameters) then Some(Parameters)
    else None
  }

  /**
    Calls the setter of `f`: setSearchEngine checks the allow-list,
    setParameters accepts only an array, the other eight assign unconditionally.
    A setter that throws assigns nothing.
   */
  function Assign(s: State, f: Field, v: Value): Result<State, Error> {
    match f
    case SearchEngine =>
      if InAllowList(v, s.supportedSearchEngines) then Success(Set(s, f, v))
      else Failure(InvalidArgument(UnsupportedEngineMessage))
    case Parameters =>
      if v.Arr? then Success(Set(s, f, v)) else Failure(TypeError)
    case _ => Success(Set(s, f, v))
  }

  /** `populateField(field, v)`: dispatch by name, or throw for an unknown name. */
  function ApplyField(s: State, field: string, v: Value): Result<State, Error> {
    match Dispatch(field)
    case None => Failure(OutOfBounds(UnsupportedFieldMessage(field)))
    case Some(f) => Assign(s, f, v)
  }

  /** The state and outcome after a call: on a throw, the state it started from. */
  function Settle(s: State, r: Result<State, Error>): (State, Outcome) {
    match r
    case Success(s') => (s', Pass)
    case Failure(e) => (s, Fail(e))
  }

  /**
    `populate(data)`: the entries in order, stopping at the first that throws.
    The state returned is the one at the moment of the throw.
   */
  function ApplyAll(s: State, data: seq<(string, Value)>): (State, Outcome)
    decreases |data|
  {
    if data == [] then (s, Pass)
    else
      match ApplyField(s, data[0].0, data[0].1)
      case Failure(e) => (s, Fail(e))
      case Success(s') => ApplyAll(s', data[1..])
  }

  /**
    `get_object_vars($this)`: every property with its value, in declaration
    order; the allow-list is declared last.
   */
  function Vars(s: State): seq<(string, Value)> {
    seq(|Fields|, i requires 0 <= i < |Fields| => (Name(Fields[i]), Get(s, Fields[i])))
    + [(AllowListName, StringList(s.supportedSearchEngines))]
  }

  /** A property the serialiser writes out: not the allow-list, not loosely null. */
  predicate Kept(p: (string, Value)) {
    p.0 != AllowListName && !LooselyNull(p.1)
  }

  /** The kept properties of `vars`, in their order. */
  function Filter(vars: seq<(string, Value)>): seq<(string, Value)> {
    if vars == [] then []
    else
      var last := vars[|vars| - 1];
      Filter(vars[..|vars| - 1]) + (if Kept(last) then [last] else [])
  }

  /** The key/value list that `__toString` hands to `json_encode`. */
  function Payload(s: State): seq<(string, Value)> {
    Filter(Vars(s))
  }

  /** The type guarantees the setters give the two validated fields. */
  predicate WellTyped(s: State) {
    && (s.searchEngine.Null? || s.searchEngine.Str?)
    && (s.parameters.Null? || s.parameters.Arr?)
  }
}
