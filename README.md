# SERP request builder

This Dafny project models `SerpsRequest`, the request builder of the SERP (search engine results page) endpoint in version 3 of the client API. A request object has:

- ten optional request fields: `search_engine`, `region`, `town`, `search_type`, `language`, `max_results`, `phrase`, `universal`, `strategy` and `parameters`;
- an allow-list of search engines, which starts as `bing`, `google`, `yahoo` and `yandex`.

Fields are filled in three ways:

- by their setters;
- by name, through `populateField`;
- from an associative array, through `populate` or the constructor.

`__toString` serialises the object into the request body.

The project has five modules:

- `PhpValues` (`php_values.dfy`): the PHP values a field can hold, and PHP's loose comparison with `null`, which the serialiser uses.
- `SerpsSpec` (`serps_spec.dfy`): the request state as a value, and each operation as a function on it. This covers dispatch by name as written, `populate` stopping at the first exception, and the property list the serialiser walks.
- `Serps` (`serps_request.dfy`): the class `SerpsRequest`, with the source's eleven properties as mutable fields. Each method's contract is stated through `Snapshot()`, the object's state as a value. `Populate`, `PopulateField` and `ToString` are proved equal to the `SerpsSpec` functions `ApplyAll`, `ApplyField` and `Payload`. Each setter states its whole new state as the old state with that one field replaced.
- `SerpsProperties` (`serps_properties.dfy`): what the builder promises, proved as lemmas about those functions:
  - which field a call changes;
  - which keys the dispatcher accepts;
  - where a failing `populate` stops;
  - what the payload holds, and in which order.
- `Wrappers` (`wrappers.dfy`): `Option` and `Result`.

The dispatcher in `populateField` compares the key with `"search_type "`, which has a trailing space (`PHP/src/Aseo/Api/V3/Serps/SerpsRequest.php:131-133`). The model keeps this as written, so `search_type` can only be set through its setter or that padded key. `DispatchSearchType`, `SearchTypeNotByName`, `OnlyPaddedKeySetsSearchType` and `ApplyAllKeepsSearchType` prove what this means. Preserving this behaviour is a compatibility choice, so no corrected dispatcher is proposed here.

An exception is modelled as an outcome value: `Fail(error)`, or `Failure(error)` in a `Result`. The error is one of:

- `OutOfBounds`, for an unknown field name. The message is the source's, with the name appended.
- `InvalidArgument`, for an engine outside the allow-list.
- `TypeError`, for a non-array given to `setParameters`. That method declares its parameter as `array`, so PHP raises this error. It is not an `InvalidArgumentException`.

A setter that throws assigns nothing. `populate` does not roll back the entries it applied before the exception.

## Model

| member | source | states |
|---|---|---|
| Serps.SerpsRequest.constructor | PHP/src/Aseo/Api/V3/Serps/SerpsRequest.php:24-85 | a new object has every field null and the default allow-list bing, google, yahoo, yandex |
| Serps.SerpsRequest.Create | PHP/src/Aseo/Api/V3/Serps/SerpsRequest.php:87-90 | constructing from `data` yields a fresh object in the state `populate(data)` leaves a default object in, or fails with the error that `populate` raises |
| Serps.SerpsRequest.Populate | PHP/src/Aseo/Api/V3/Serps/SerpsRequest.php:100-105 | the new state and outcome are those of `ApplyAll` on the old state: entries applied in order until the first one that throws |
| Serps.SerpsRequest.PopulateField | PHP/src/Aseo/Api/V3/Serps/SerpsRequest.php:116-159 | the new state and outcome are those of `ApplyField` on the old state: the setter the name selects, or OutOfBounds for an unknown name, with the state unchanged on every exception |
| Serps.SerpsRequest.ToString | PHP/src/Aseo/Api/V3/Serps/SerpsRequest.php:163-178 | the key/value list handed to the encoder is `Payload` of the current state; the method modifies nothing, so two calls in a row give the same payload |
| Serps.SerpsRequest.SetSearchEngine | PHP/src/Aseo/Api/V3/Serps/SerpsRequest.php:187-197 | succeeds iff the value is in the allow-list at call time and then changes only search_engine; otherwise throws InvalidArgument "Search Engine is not supported" and changes nothing |
| Serps.SerpsRequest.SetRegion | PHP/src/Aseo/Api/V3/Serps/SerpsRequest.php:206-211 | assigns region, any value, and nothing else |
| Serps.SerpsRequest.SetTown | PHP/src/Aseo/Api/V3/Serps/SerpsRequest.php:220-225 | assigns town, any value, and nothing else |
| Serps.SerpsRequest.SetSearchType | PHP/src/Aseo/Api/V3/Serps/SerpsRequest.php:234-239 | assigns search_type, any value, and nothing else |
| Serps.SerpsRequest.SetLanguage | PHP/src/Aseo/Api/V3/Serps/SerpsRequest.php:248-253 | assigns language, any value, and nothing else |
| Serps.SerpsRequest.SetMaxResults | PHP/src/Aseo/Api/V3/Serps/SerpsRequest.php:262-267 | assigns max_results without checking it is a number, and nothing else |
| Serps.SerpsRequest.SetPhrase | PHP/src/Aseo/Api/V3/Serps/SerpsRequest.php:276-281 | assigns phrase, any value, and nothing else |
| Serps.SerpsRequest.SetUniversal | PHP/src/Aseo/Api/V3/Serps/SerpsRequest.php:290-295 | assigns universal without checking it is a boolean, and nothing else |
| Serps.SerpsRequest.SetStrategy | PHP/src/Aseo/Api/V3/Serps/SerpsRequest.php:304-309 | assigns strategy, any value, and nothing else |
| Serps.SerpsRequest.SetParameters | PHP/src/Aseo/Api/V3/Serps/SerpsRequest.php:318-323 | stores the given array as it is in parameters, and nothing else |
| Serps.SerpsRequest.GetSupportedSearchEngines | PHP/src/Aseo/Api/V3/Serps/SerpsRequest.php:330-333 | returns the current allow-list |
| Serps.SerpsRequest.SetSupportedSearchEngines | PHP/src/Aseo/Api/V3/Serps/SerpsRequest.php:342-347 | replaces the allow-list, with no check of the engine already set, and changes nothing else |
| PhpValues.LooselyNullValues | PHP/src/Aseo/Api/V3/Serps/SerpsRequest.php:173-175 | the values `null != $value` rejects are exactly null, false, 0, "" and the empty array; "0" is kept |
| SerpsSpec.Set | PHP/src/Aseo/Api/V3/Serps/SerpsRequest.php:206-323 | assigning a field makes it read back the new value and keeps the allow-list |
| SerpsSpec.SetKeepsOthers | PHP/src/Aseo/Api/V3/Serps/SerpsRequest.php:206-323 | assigning one field leaves every other field as it was |
| SerpsProperties.NameInjective | PHP/src/Aseo/Api/V3/Serps/SerpsRequest.php:24-78 | the ten properties have distinct names |
| SerpsProperties.FieldsComplete | PHP/src/Aseo/Api/V3/Serps/SerpsRequest.php:24-78 | every field is among the declared properties |
| SerpsProperties.FieldNamedIff | PHP/src/Aseo/Api/V3/Serps/SerpsRequest.php:24-78 | looking a name up finds the field with that property name, and only that field |
| SerpsProperties.FieldNamedName | PHP/src/Aseo/Api/V3/Serps/SerpsRequest.php:24-78 | looking up a field's own property name finds that field |
| SerpsProperties.DispatchKeys | PHP/src/Aseo/Api/V3/Serps/SerpsRequest.php:116-157 | the dispatcher accepts exactly the ten keys it compares with, each selecting its own setter |
| SerpsProperties.DispatchSearchType | PHP/src/Aseo/Api/V3/Serps/SerpsRequest.php:131-133 | the property name "search_type" is rejected by the dispatcher; "search_type " is accepted but names no property |
| SerpsProperties.DispatchAgreesWithPropertyNames | PHP/src/Aseo/Api/V3/Serps/SerpsRequest.php:116-157 | apart from that one key, the dispatcher accepts exactly the property names |
| SerpsProperties.UnknownFieldRejected | PHP/src/Aseo/Api/V3/Serps/SerpsRequest.php:159 | an unknown name throws OutOfBounds whose message ends with that name, and the state is unchanged |
| SerpsProperties.ApplyFieldChangesOneField | PHP/src/Aseo/Api/V3/Serps/SerpsRequest.php:116-157 | a successful call by name assigns the selected field and changes no other field and not the allow-list |
| SerpsProperties.SearchEngineChecked | PHP/src/Aseo/Api/V3/Serps/SerpsRequest.php:187-197 | setting the engine succeeds iff the value is a string in the current allow-list, and fails with InvalidArgument otherwise |
| SerpsProperties.ApplyFieldSucceeds | PHP/src/Aseo/Api/V3/Serps/SerpsRequest.php:116-159 | a call by name succeeds iff the key is dispatched and its setter accepts the value |
| SerpsProperties.AcceptedEngineWasAllowed | PHP/src/Aseo/Api/V3/Serps/SerpsRequest.php:187-197 | a call by name that changes search_engine used the key "search_engine", with a value then in the allow-list |
| SerpsProperties.AllowListScenario | PHP/src/Aseo/Api/V3/Serps/SerpsRequest.php:85-197 | "altavista" is rejected under the default allow-list and accepted once the allow-list is ["altavista"] |
| SerpsProperties.SearchTypeNotByName | PHP/src/Aseo/Api/V3/Serps/SerpsRequest.php:131-159 | populateField("search_type", v) always throws OutOfBounds; populateField("search_type ", v) sets search_type |
| SerpsProperties.OnlyPaddedKeySetsSearchType | PHP/src/Aseo/Api/V3/Serps/SerpsRequest.php:131-133 | a call by name that changes search_type used the key "search_type " |
| SerpsProperties.AssignWellTyped | PHP/src/Aseo/Api/V3/Serps/SerpsRequest.php:187-323 | with the allow-list check modelled on strings only, the setters keep search_engine null or a string, and parameters null or an array |
| SerpsProperties.ApplyFieldWellTyped | PHP/src/Aseo/Api/V3/Serps/SerpsRequest.php:116-159 | a call by name, succeeding or not, keeps those two fields typed |
| SerpsProperties.ApplyAllKeepsAllowList | PHP/src/Aseo/Api/V3/Serps/SerpsRequest.php:100-105 | populate never changes the allow-list |
| SerpsProperties.ApplyAllConcat | PHP/src/Aseo/Api/V3/Serps/SerpsRequest.php:100-105 | populating a + b is populating a, then b only if a went through |
| SerpsProperties.ApplyAllStopsAtFailure | PHP/src/Aseo/Api/V3/Serps/SerpsRequest.php:100-105 | when an entry throws, the entries before it stay applied, no later entry is applied, and its error is the outcome |
| SerpsProperties.ApplyAllFailureLocated | PHP/src/Aseo/Api/V3/Serps/SerpsRequest.php:100-105 | a populate that throws leaves exactly the state after some prefix of the entries, and the next entry threw the reported error |
| SerpsProperties.ApplyAllSucceeds | PHP/src/Aseo/Api/V3/Serps/SerpsRequest.php:100-159 | populate goes through iff every key is dispatched and every value is accepted by its setter |
| SerpsProperties.ApplyAllKeepsSearchType | PHP/src/Aseo/Api/V3/Serps/SerpsRequest.php:100-133 | without the padded key "search_type ", populate never changes search_type |
| SerpsProperties.ApplyAllWellTyped | PHP/src/Aseo/Api/V3/Serps/SerpsRequest.php:100-105 | populate keeps search_engine and parameters typed |
| SerpsProperties.FilterMembers | PHP/src/Aseo/Api/V3/Serps/SerpsRequest.php:167-176 | the serialiser's loop keeps exactly the properties that are not the allow-list and not loosely null |
| SerpsProperties.FilterSubsequence | PHP/src/Aseo/Api/V3/Serps/SerpsRequest.php:167-176 | the serialiser's loop keeps the properties in their order |
| SerpsProperties.PayloadOmitsAllowList | PHP/src/Aseo/Api/V3/Serps/SerpsRequest.php:168-171 | the payload never has the key supportedSearchEngines |
| SerpsProperties.VarsMembers | PHP/src/Aseo/Api/V3/Serps/SerpsRequest.php:167 | the properties walked are the ten fields under their names with their values, plus the allow-list |
| SerpsProperties.PayloadMembers | PHP/src/Aseo/Api/V3/Serps/SerpsRequest.php:163-178 | a key/value pair is in the payload iff the key names a field, the value is that field's current value, and the value is not loosely null; so a field never set is never sent |
| SerpsProperties.PayloadInDeclarationOrder | PHP/src/Aseo/Api/V3/Serps/SerpsRequest.php:24-85 | the payload is a subsequence of the properties in declaration order |
| SerpsProperties.FilterKeysDistinct | PHP/src/Aseo/Api/V3/Serps/SerpsRequest.php:167-176 | the serialiser's loop never produces a key twice when the properties it walks have distinct names |
| SerpsProperties.VarsKeysDistinct | PHP/src/Aseo/Api/V3/Serps/SerpsRequest.php:24-85 | the eleven properties walked have distinct names |
| SerpsProperties.PayloadKeysDistinct | PHP/src/Aseo/Api/V3/Serps/SerpsRequest.php:165-176 | every key appears at most once in the payload, as in the keyed array `$json` it is built in |
| SerpsProperties.DefaultPayloadEmpty | PHP/src/Aseo/Api/V3/Serps/SerpsRequest.php:163-178 | a default object serialises to an empty list |
| SerpsProperties.AllowListNotSerialized | PHP/src/Aseo/Api/V3/Serps/SerpsRequest.php:342-347 | replacing the allow-list changes no field and not the payload, so an engine accepted earlier is still sent |
| SerpsProperties.EngineAndMaxResultsPayload | PHP/src/Aseo/Api/V3/Serps/SerpsRequest.php:163-178 | with only search_engine and max_results set, and neither loosely null, the payload is exactly those two, in that order |
| SerpsProperties.PopulateScenario | PHP/src/Aseo/Api/V3/Serps/SerpsRequest.php:87-178 | populating search_engine "bing" and max_results 5 succeeds and serialises to exactly those two keys, in that order |
| SerpsProperties.PopulateThenSerialize | PHP/src/Aseo/Api/V3/Serps/SerpsRequest.php:116-178 | for every field except search_type, a value its setter accepts and that is not loosely null, set by name, appears in the payload |

## Left out

- The text encoding by `json_encode` is not modelled. `__toString` is modelled up to the ordered key/value list it encodes.
- Floating-point numbers and objects are not modelled as values. Arrays are modelled as ordered lists of keys and values.
- Serps.SerpsRequest.SetSearchEngine: `in_array` is called without its strict flag, so PHP compares the value with each entry by `==`. The model accepts only a string equal to an entry. PHP's `==` also accepts: a numeric string equal in value to a numeric entry (`"1e1"` against `"10"`); an integer equal in value to a numeric entry (`10` against `"10"`); `true` against a list with an entry other than `""` and `"0"`; `false` against a list containing `""` or `"0"`; `null` against a list containing `""`; and, before PHP 8, `0` against a list with a non-numeric entry.
- SerpsProperties.SearchEngineChecked: states the exact-string check only, so it misses the values listed in the line above that PHP's `==` also accepts.
- SerpsProperties.AssignWellTyped: the guarantee that search_engine stays null or a string holds only under the string-only `in_array` check of the model. In PHP, `setSearchEngine(true)` stores `true`, and `0` is stored the same way before PHP 8.
- SerpsProperties.ApplyFieldWellTyped: holds only under the string-only `in_array` check, for the same reason. In PHP, `populateField("search_engine", true)` stores a boolean.
- SerpsProperties.ApplyAllWellTyped: holds only under the string-only `in_array` check, for the same reason. In PHP, `populate(['search_engine' => true])` stores a boolean.
- The encoder's output for an empty request is not modelled. `json_encode` of an empty PHP array gives `[]`, an empty JSON array, not `{}`. The model only states that the key/value list is empty (`DefaultPayloadEmpty`).
- Keys are modelled as strings compared with `==`, as in PHP 8. Before PHP 8, an integer key `0` compares equal to every non-numeric name, so it would reach the first setter. This is not modelled.
- Each setter returns `$this` for chaining. This is not modelled: the methods return the outcome instead.
- PHP cannot fail a constructor without throwing. `new SerpsRequest($data)` is modelled by `Create`, which returns a `Result`. The plain constructor gives the property defaults.
- The `TypeError` that the `array` type hint of `setParameters` raises carries a PHP-generated message. The model keeps only the error kind.
- SerpsProperties.PopulateThenSerialize: a value set by name appears in the payload only if it is not loosely null. `null`, `false`, `0`, `""` and `[]` are dropped by the serialiser, as `null != $value` is written. The lemma also excludes `search_type`, because the dispatcher matches only the key `"search_type "`, with a trailing space, and not the property's own name.
- Sending the request and the HTTP client that consumes the payload are not part of this model.
