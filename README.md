# Real-estate properties API: a verified model

This project models the core of a small real-estate API and its web client:

- **Listing query.** The property listing filters the `properties` collection by a free-text term, an address term and inclusive price bounds, then cuts a page from the matches.
- **Repository.** It reads the collection and writes to it one document at a time: insert, replace by id, delete by id.
- **Validators.** Two request validators report which fields of a filter request or a property record break a rule.
- **Mappings.** The object mappings convert entities to transport records and back. An image resolver picks a property's display image.
- **Service.** The business service loads, overlays and persists records.
- **Controller.** It turns every service outcome, including exceptions, into a uniform envelope `{success, data, message, error}` under HTTP 200.
- **Middlewares.**
  - A response-rewriting middleware buffers a handler's body and replaces it with an envelope.
  - An exception middleware turns an unhandled fault into a 500 envelope.
- **Web client.** It builds the listing request's query string, unwraps the envelope of every response and picks the error to raise. It also joins CSS class names.

## How the pieces are modelled

- **Data.**
  - Entities and records are datatypes (`entities.dfy`).
  - Prices, which are .NET `decimal` values, are `real` and compared as numbers.
  - Strings are sequences of Unicode characters. The validators' length limits use `Text.Utf16Length`, the .NET length in UTF-16 code units.
  - Null image and trace lists are `Option`.
  - A null `Name` or `Address` in a filter behaves as `""` everywhere it is read, so both are plain strings.
- **Listing query.**
  - The query is a pure predicate over a sequence of documents in store order, plus a slice (`query.dfy`).
  - The criteria list mirrors the source's successive additions. Their conjunction is `Matches`.
- **Repository.**
  - The repository is a class whose `documents` field is the collection (`repository.dfy`).
  - Its `Valid()` invariant is the store's unique `_id` index.
  - Insert, replace-one and delete-one act on the first match.
  - A ghost field records every id passed to `Update`.
- **Service.** The service is a class that owns the repository. Its update states the whole new store (`service.dfy`).
- **Pure functions.** Validators, mappings, envelope factories and controller actions are pure functions with their contracts (`validation.dfy`, `mapping.dfy`, `envelope.dfy`, `controller.dfy`).
- **Middlewares.**
  - Streams and the HTTP response are classes whose methods move a position, truncate, write, copy and close (`pipeline.dfy`).
  - The inner handler is an `InnerRun` value: what it writes, and whether it completes with a status or throws.
  - JSON parsing and serialisation are function parameters.
- **Web client.** The client's `request` is a function of what `fetch` gave. The query string is built by a method that appends parameters one by one, proved equal to a specification function (`client.dfy`).
- **Validators are not a gate.** They are registered (api/RealEstateAPI.API/Program.cs:29) but automatic validation is never enabled and no action calls them. The model states what they accept; results such as `PropertyQuery.AcceptedFilterBoundsResult` hold only for requests a caller has validated.
- **Clock.** The current year, which the property validator reads from the clock, is a parameter.
- **Where the specification and the code disagree, the model follows the code.** The exceptions are the members that correct a defect listed under "## Findings"; their rows begin "as intended (Findings row N)", and each has an as-written partner. The disagreements with the specification are:
  - The repository's replace-by-id does not report a missing id as not found. It returns the passed property whenever the write is acknowledged (`Repository.PropertyRepository.Update`). Only the service's prior lookup yields null.
  - A failed envelope may carry an empty `error`: `ErrorResult("")` is well formed (`Envelope.FailedEnvelopeMayLackErrorText`). An exception with an empty message and an error response with an empty body both produce one. The client then raises its own fallback text (`ClientService.ServerEnvelopeSeenByClient`).
  - Only the exception middleware is registered in the application's pipeline (api/RealEstateAPI.API/Program.cs:86). Each middleware is modelled on its own, not as a two-layer chain.

## Model

| member | source | states |
|---|---|---|
| Envelope.EmptyResponse | api/RealEstateAPI.Core/DTOs/ApiResponse.cs:5-8 | a default envelope is unsuccessful with no data and empty `Message` and `Error` |
| Envelope.SuccessResult | api/RealEstateAPI.Core/DTOs/ApiResponse.cs:10-19 | Success = true, Data = the data, Message = the message, Error = "" |
| Envelope.ErrorResult | api/RealEstateAPI.Core/DTOs/ApiResponse.cs:21-30 | Success = false, Data = default, Message = the message, Error = the error |
| Envelope.FactoriesWellFormed | api/RealEstateAPI.Core/DTOs/ApiResponse.cs:10-30 | both factories give well-formed envelopes (data exactly when successful) and never coincide |
| Envelope.DefaultMessages | api/RealEstateAPI.Core/DTOs/ApiResponse.cs:10-21 | the default messages are "Operación exitosa" and "Error en la operación" |
| Envelope.FailedEnvelopeMayLackErrorText | api/RealEstateAPI.Core/DTOs/ApiResponse.cs:21-30 | a failed envelope with an empty error is well formed: nothing enforces a non-empty error |
| Validation.FilterErrors | api/RealEstateAPI.Core/Validators/PropertyFilterDtoValidator.cs:10-32 | each filter field fails exactly when its rule is broken: name over 100, address over 200 (lengths in UTF-16 code units, as .NET counts them), negative minimum, maximum below a present minimum or at least 1e9, page below 1, page size outside 1..100 |
| Validation.AcceptedFilterIsBounded | api/RealEstateAPI.Core/Validators/PropertyFilterDtoValidator.cs:18-32 | an accepted filter has page ≥ 1, page size in 1..100, a non-negative minimum and minimum ≤ maximum < 1e9 |
| Validation.DefaultFilterAccepted | api/RealEstateAPI.Tests/Validators/PropertyFilterDtoValidatorTests.cs:41-51 | a filter with no criteria at the default page passes every rule |
| Validation.FilterPriceExamples | api/RealEstateAPI.Core/Validators/PropertyFilterDtoValidator.cs:18-24 | equal bounds pass; a negative minimum fails on MinPrice; a maximum under the minimum fails on MaxPrice |
| Validation.NegativeMaxPriceAloneAccepted | api/RealEstateAPI.Core/Validators/PropertyFilterDtoValidator.cs:22-26 | with no minimum, a negative maximum passes |
| Validation.PagingExamples | api/RealEstateAPI.Core/Validators/PropertyFilterDtoValidator.cs:28-32 | pages 0 and -1 and page sizes 0, -1 and 101 fail on their own fields |
| Validation.PropertyErrors | api/RealEstateAPI.Core/Validators/PropertyDtoValidator.cs:10-33 | as intended (Findings row 2): each record field fails exactly when its rule is broken, with the code and owner-id patterns as whole-string matches: blank name or address, or over 100 and 200 UTF-16 code units, price outside (0, 1e9), code not 1..50 characters of A–Z, 0–9, '-', '_', year outside (1900, current+1], owner id not 24 hex digits |
| Validation.CodePatternAsWritten | api/RealEstateAPI.Core/Validators/PropertyDtoValidator.cs:22-25 | as the engine runs it, the code pattern accepts every intended code, agrees with the intended rule on text without a line feed, and otherwise accepts only text ending in a line feed |
| Validation.ObjectIdPatternAsWritten | api/RealEstateAPI.Core/Validators/PropertyDtoValidator.cs:31-33 | as the engine runs it, the owner-id pattern accepts every 24-hex-digit id, agrees with the intended rule on text without a line feed, and accepts only 24 or 25 characters |
| Validation.PatternsAcceptTrailingLineFeed | api/RealEstateAPI.Core/Validators/PropertyDtoValidator.cs:22-33 | as written, both anchored patterns accept their value followed by one line feed |
| Validation.AcceptedPropertyIdsAreCanonical | api/RealEstateAPI.Core/Validators/PropertyDtoValidator.cs:22-33 | as intended (Findings row 2): an accepted record has an owner id of exactly 24 hex digits and a code of 1..50 characters with no line feed |
| Validation.SampleDtoAccepted | api/RealEstateAPI.Tests/Validators/PropertyDtoValidatorTests.cs:20-38 | a record with all fields in range and a 24-hex owner id passes, from 2022 on |
| Validation.AcceptedWhenInRange | api/RealEstateAPI.Core/Validators/PropertyDtoValidator.cs:10-33 | a non-blank name and address within half their limits in characters, a price in (0, 1e9), a valid code, a year in (1900, current+1] and a 24-hex owner id give no error |
| Validation.AstralNameCountsTwice | api/RealEstateAPI.Core/Validators/PropertyFilterDtoValidator.cs:10-12 | a name of sixty characters above U+FFFF is 120 code units long and breaks the 100-unit limit in both validators |
| Text.Utf16Length | api/RealEstateAPI.Core/Validators/PropertyDtoValidator.cs:12 | the .NET string length lies between the character count and twice it |
| Text.Utf16LengthOfPlane | api/RealEstateAPI.Core/Validators/PropertyDtoValidator.cs:12 | the .NET string length is the character count within the Basic Multilingual Plane, and twice it above |
| Validation.PropertyRejectionExamples | api/RealEstateAPI.Core/Validators/PropertyDtoValidator.cs:10-33 | empty or blank name, empty address, zero or negative price, empty code, years 1800 and current+2, and empty or non-hex owner ids each fail on their own field |
| Mapping.FirstEnabledFile | api/RealEstateAPI.Business/MappingProfiles/PropertyProfile.cs:36-37 | null exactly when no image is enabled; otherwise the file of an enabled image with no enabled image before it |
| Mapping.ResolveImage | api/RealEstateAPI.Business/MappingProfiles/PropertyProfile.cs:32-33 | a null or empty list resolves to null |
| Mapping.ResolvedImageIsEnabled | api/RealEstateAPI.Business/MappingProfiles/PropertyProfile.cs:36-37 | a resolved file is the file of an enabled image of the list |
| Mapping.NoEnabledImageResolvesNull | api/RealEstateAPI.Business/MappingProfiles/PropertyProfile.cs:36-37 | with no enabled image the result is null |
| Mapping.FirstEnabledWins | api/RealEstateAPI.Business/MappingProfiles/PropertyProfile.cs:36-37 | the first enabled image in list order is the one resolved |
| Mapping.ResolveExample | api/RealEstateAPI.Tests/Mappers/PropertyImageResolverTests.cs:21-39 | [off image1, on image2, on image3] resolves to "image2.jpg" |
| Mapping.ToDto | api/RealEstateAPI.Business/MappingProfiles/PropertyProfile.cs:12-13 | entity to record copies id, name, address, price, code, year and owner id verbatim, takes the resolved image, and embeds no owner |
| Mapping.MapOnto | api/RealEstateAPI.Business/MappingProfiles/PropertyProfile.cs:16-18 | overlaying a record copies its seven scalars onto the entity and leaves the entity's image and trace lists untouched |
| Mapping.ToEntity | api/RealEstateAPI.Business/MappingProfiles/PropertyProfile.cs:16-18 | a fresh entity from a record has the record's scalars and empty image and trace lists |
| Mapping.OwnerToDto | api/RealEstateAPI.Business/MappingProfiles/PropertyProfile.cs:21 | owner to owner record copies every member by name |
| Mapping.OwnerFromDto | api/RealEstateAPI.Business/MappingProfiles/PropertyProfile.cs:21 | owner record to owner is the inverse of the forward map |
| Mapping.DtoRoundTrip | api/RealEstateAPI.Business/MappingProfiles/PropertyProfile.cs:12-18 | record to entity and back preserves every scalar field |
| Mapping.EntityRoundTrip | api/RealEstateAPI.Business/MappingProfiles/PropertyProfile.cs:12-18 | entity to record and back onto the same entity gives the entity back |
| Mapping.OwnerRoundTrips | api/RealEstateAPI.Business/MappingProfiles/PropertyProfile.cs:21 | both owner round trips are the identity |
| PropertyQuery.Criteria | api/RealEstateAPI.Repository/PropertyRepository.cs:34-58 | at most four criteria: the name-or-address term exactly when a name is given, the address term exactly when only an address is given, each present price bound, and nothing else |
| PropertyQuery.Matches | api/RealEstateAPI.Repository/PropertyRepository.cs:34-60 | the conjunction of the criteria list is: a given name occurs in the name or the address, an address given alone occurs in the address, and each present bound holds inclusively |
| PropertyQuery.NameSearchesNameOrAddress | api/RealEstateAPI.Repository/PropertyRepository.cs:35-42 | with a name, a property matches iff its name or its address contains the term case-insensitively and its price is within the bounds |
| PropertyQuery.AddressIgnoredWhenNameGiven | api/RealEstateAPI.Repository/PropertyRepository.cs:45-48 | with a name, changing the address field changes no match |
| PropertyQuery.AddressSearchesAddress | api/RealEstateAPI.Repository/PropertyRepository.cs:45-48 | with no name and an address, a property matches iff its address contains the term and its price is within the bounds |
| PropertyQuery.MatchesWithinPrice | api/RealEstateAPI.Repository/PropertyRepository.cs:50-58 | every match satisfies the present bounds, both inclusive |
| PropertyQuery.NoCriteriaMatchesAll | api/RealEstateAPI.Repository/PropertyRepository.cs:60 | with no criteria every property matches |
| PropertyQuery.Filtered | api/RealEstateAPI.Repository/PropertyRepository.cs:60-62 | the matches are exactly the stored properties satisfying the predicate, at most as many as stored |
| PropertyQuery.FilteredKeepsOrder | api/RealEstateAPI.Repository/PropertyRepository.cs:60-62 | the scan keeps store order: filtering distributes over concatenation, and one document is kept exactly when it matches |
| PropertyQuery.FilteredCounts | api/RealEstateAPI.Repository/PropertyRepository.cs:60-62 | a matching document occurs in the matches as often as in the store, any other not at all |
| PropertyQuery.Query | api/RealEstateAPI.Repository/PropertyRepository.cs:29-69 | the listing returns at most as many properties as are stored, each stored and matching |
| PropertyQuery.SkipTake | api/RealEstateAPI.Repository/PropertyRepository.cs:66 | skip-then-limit gives the elements from the offset on, at most `limit` of them, empty exactly when the offset is past the end or the limit is 0 |
| PropertyQuery.QueryIsPage | api/RealEstateAPI.Repository/PropertyRepository.cs:64-69 | as intended (Findings row 1): with positive page and size, the result is exactly the slice of the matches from (page-1)*size of length min(size, remaining), empty when the offset is past the end; otherwise all matches |
| PropertyQuery.SkipAsWritten | api/RealEstateAPI.Repository/PropertyRepository.cs:66 | the 32-bit skip is always a 32-bit value, and equals (page-1)*size whenever neither step overflows |
| PropertyQuery.PaginateAsWritten | api/RealEstateAPI.Repository/PropertyRepository.cs:64-69 | the store refuses the page only when the wrapped skip is negative; without overflow the as-written page is the intended one |
| PropertyQuery.QuerySound | api/RealEstateAPI.Repository/PropertyRepository.cs:29-69 | every returned property is stored, matches the filter and lies within its bounds |
| PropertyQuery.AcceptedFilterBoundsResult | api/RealEstateAPI.Repository/PropertyRepository.cs:64-69 | a filter the validator accepts returns at most page-size ≤ 100 properties |
| PropertyQuery.PagesAreConsecutive | api/RealEstateAPI.Repository/PropertyRepository.cs:64-67 | page p+1 starts where page p ends, so two consecutive pages are one slice of twice the size |
| PropertyQuery.Wrap32 | api/RealEstateAPI.Repository/PropertyRepository.cs:66 | 32-bit two's-complement wrap-around: in range and congruent modulo 2^32 |
| PropertyQuery.SkipOverflowExample | api/RealEstateAPI.Repository/PropertyRepository.cs:66 | page 42949674 at size 100 would pass the filter validator, yet the 32-bit skip is 4 and the listing returns matches 5 to 104 where the intended page is empty |
| Repository.IndexOf | api/RealEstateAPI.Repository/PropertyRepository.cs:26 | the first position holding the id, or none exactly when no document has it |
| Repository.FindById | api/RealEstateAPI.Repository/PropertyRepository.cs:24-27 | a found document is stored and has the id; none exactly when no document has it |
| Repository.AppendFresh | api/RealEstateAPI.Repository/PropertyRepository.cs:72-76 | inserting a new id keeps ids unique and makes the document findable |
| Repository.ReplaceFirstSpec | api/RealEstateAPI.Repository/PropertyRepository.cs:78-82 | replacing by id with the same id keeps ids unique, makes the new document the one found, and leaves every other id's document as it was |
| Repository.ReplaceFirst | api/RealEstateAPI.Repository/PropertyRepository.cs:78-82 | replace-one keeps the length, puts the new document at the first match, and leaves every other position as it was |
| Repository.RemoveFirst | api/RealEstateAPI.Repository/PropertyRepository.cs:84-88 | delete-one removes exactly one occurrence of the first match and nothing else; without a match nothing changes |
| Repository.RemoveFirstSpec | api/RealEstateAPI.Repository/PropertyRepository.cs:84-88 | deleting by id removes exactly the document with that id and keeps all others |
| Repository.PropertyRepository.GetAll | api/RealEstateAPI.Repository/PropertyRepository.cs:19-22 | every document, in store order |
| Repository.PropertyRepository.GetById | api/RealEstateAPI.Repository/PropertyRepository.cs:24-27 | a stored property with the id, or null exactly when none exists |
| Repository.PropertyRepository.GetFiltered | api/RealEstateAPI.Repository/PropertyRepository.cs:29-70 | as intended (Findings row 1): the page of the filtered query with the skip in unbounded arithmetic; every result is stored and matches |
| Repository.PropertyRepository.Create | api/RealEstateAPI.Repository/PropertyRepository.cs:72-76 | an empty id gets the generated id; a taken id is refused with the store unchanged; otherwise the document is appended and returned as inserted |
| Repository.PropertyRepository.Update | api/RealEstateAPI.Repository/PropertyRepository.cs:78-82 | replaces the first match; returns the passed property whenever acknowledged, even if nothing matched; altering a matched `_id` is refused |
| Repository.PropertyRepository.Delete | api/RealEstateAPI.Repository/PropertyRepository.cs:84-88 | true iff acknowledged and a document with the id existed; it is removed and all others kept |
| Business.ToDtos | api/RealEstateAPI.Business/PropertyService.cs:22 | one record per entity, same count, same order |
| Business.Overlaid | api/RealEstateAPI.Business/PropertyService.cs:50-51 | the persisted entity has the route id whatever the record's id, the record's other scalars, and the loaded image and trace lists |
| Business.PropertyService.GetAllProperties | api/RealEstateAPI.Business/PropertyService.cs:19-23 | the records of all stored properties, one for one |
| Business.PropertyService.GetPropertyById | api/RealEstateAPI.Business/PropertyService.cs:25-29 | null iff the repository finds nothing; otherwise the mapped record |
| Business.PropertyService.GetFilteredProperties | api/RealEstateAPI.Business/PropertyService.cs:31-35 | as intended (Findings row 1): the records of the repository's page, one for one, preserving count and order |
| Business.PropertyService.CreateProperty | api/RealEstateAPI.Business/PropertyService.cs:37-42 | the record becomes a fresh entity, is inserted, and its record returned; a taken id is refused |
| Business.PropertyService.UpdateProperty | api/RealEstateAPI.Business/PropertyService.cs:44-55 | a missing id gives null with no write and no repository update; otherwise the overlaid entity with the route id replaces the stored one through exactly one update call with the route id |
| Business.PropertyService.DeleteProperty | api/RealEstateAPI.Business/PropertyService.cs:57-60 | exactly the repository's delete result and effect |
| Controllers.GetProperties | api/RealEstateAPI.API/Controllers/PropertiesController.cs:21-35 | status 200; success iff the service returned; the list as data, or the exception message as error |
| Controllers.GetProperty | api/RealEstateAPI.API/Controllers/PropertiesController.cs:38-54 | status 200; success iff a record was returned; null gives "Propiedad no encontrada"; an exception gives its message |
| Controllers.CreateProperty | api/RealEstateAPI.API/Controllers/PropertiesController.cs:57-72 | status 200; success iff the service returned; the created record as data, or the exception message as error |
| Controllers.UpdateProperty | api/RealEstateAPI.API/Controllers/PropertiesController.cs:75-91 | status 200; success iff a record was returned; null gives "Propiedad no encontrada"; an exception gives its message |
| Controllers.DeleteProperty | api/RealEstateAPI.API/Controllers/PropertiesController.cs:94-110 | status 200; success with data true iff the service returned true; false gives "Propiedad no encontrada"; an exception gives its message |
| Controllers.ActionsWellFormed | api/RealEstateAPI.API/Controllers/PropertiesController.cs:21-110 | every action's envelope has the factories' shape |
| Controllers.ExceptionsBecomeFailedEnvelopes | api/RealEstateAPI.API/Controllers/PropertiesController.cs:30-108 | an exception in any action gives status 200, Success = false and Error = the exception message |
| Middleware.GetErrorMessage | api/RealEstateAPI.API/Middleware/ResponseMiddleware.cs:124-135 | 400, 401, 403, 404 and 500 map to their fixed messages; every other code to "Error en la operación" |
| Middleware.SuccessData | api/RealEstateAPI.API/Middleware/ResponseMiddleware.cs:51-67 | an empty body or JSON null gives an empty object; a parsed body its document; an unparseable body its raw text |
| Middleware.Rewritten | api/RealEstateAPI.API/Middleware/ResponseMiddleware.cs:30-37 | success iff the status is in [200, 300); the success path carries the body's data and "Operación exitosa"; the error path has no data, the raw body as error and the status's message |
| Middleware.FaultEnvelope | api/RealEstateAPI.API/Middleware/ResponseMiddleware.cs:107-111 | a fault gives a failed envelope with no data, the exception message as error and "Error interno del servidor" |
| Middleware.ResponseEnvelope | api/RealEstateAPI.API/Middleware/ResponseMiddleware.cs:18-44 | the envelope for a handler run is well formed, successful iff the handler completed with a 2xx status, and carries the fault or the raw body as its error otherwise |
| Middleware.SuccessBodyExamples | api/RealEstateAPI.API/Middleware/ResponseMiddleware.cs:46-105 | an empty success body gives an empty object; an unparseable one its text; an empty 404 body an error envelope with "Recurso no encontrado" |
| Middleware.ResponseStatus | api/RealEstateAPI.API/Middleware/ResponseMiddleware.cs:107-109 | a fault leaves status 500 |
| Middleware.HttpResponse.RunNext | api/RealEstateAPI.API/Middleware/ResponseMiddleware.cs:27 | the next handler runs once, writes its output to the current body, and sets the status or throws |
| Middleware.RewriteAsWritten | api/RealEstateAPI.API/Middleware/ResponseMiddleware.cs:46-105 | JSON content type, content length cleared, the buffer holding exactly the serialised envelope, and the client stream unchanged |
| Middleware.InvokeAsWritten | api/RealEstateAPI.API/Middleware/ResponseMiddleware.cs:18-44 | as written: the handler runs once and the status and content type are set, but the client stream receives nothing, the body is left on the closed buffer, and a fault's write escapes |
| Middleware.Invoke | api/RealEstateAPI.API/Middleware/ResponseMiddleware.cs:18-44 | as intended (Findings rows 3 and 4): status unchanged (500 on a fault), JSON content type, content length cleared, and the client stream receives exactly the serialised envelope |
| Middleware.ClientStreamExample | api/RealEstateAPI.API/Middleware/ResponseMiddleware.cs:77-80 | one request through each version: the client stream gets "" as written and the envelope as intended, and a fault escapes as written |
| Middleware.UnexpectedFault | api/RealEstateAPI.API/Middleware/ExceptionMiddleware.cs:36-39 | Success = false, Error = the exception message, Message = the fixed apology |
| Middleware.HandleExceptions | api/RealEstateAPI.API/Middleware/ExceptionMiddleware.cs:18-47 | the handler runs once; with no fault the response is as the handler left it; on a fault status 500, JSON content type, and the fault envelope written after the handler's output |
| ClientService.Kept | front/src/lib/utils.ts:13 | at most as many strings as arguments, none of them empty |
| ClientService.KeptMembers | front/src/lib/utils.ts:13 | the kept strings are exactly the non-empty strings among the arguments |
| ClientService.Join | front/src/lib/utils.ts:13 | joining nothing gives ""; a single part is returned unchanged; otherwise the first part leads |
| ClientService.Cn | front/src/lib/utils.ts:13 | `cn` is "" exactly when no argument is kept, and otherwise begins with the first kept class |
| ClientService.KeptAppend | front/src/lib/utils.ts:13 | filtering distributes over concatenation, so the order is kept |
| ClientService.JoinAppend | front/src/lib/utils.ts:13 | joining puts exactly one separator between two non-empty parts |
| ClientService.CnAppend | front/src/lib/utils.ts:13 | `cn` of a concatenation is the two results joined by one space, dropping an empty side |
| ClientService.CnOfFalsy | front/src/lib/utils.ts:13 | with no truthy argument `cn` gives "" |
| ClientService.CnOfOne | front/src/lib/utils.ts:13 | with exactly one truthy argument `cn` gives it unchanged |
| ClientService.CnExample | front/src/lib/utils.ts:12-14 | "btn", undefined, "", null, false, "active" give "btn active" |
| ClientService.QueryParams | front/src/services/propertyService.ts:40-45 | no filter sends nothing; at most six parameters, each under one of the six keys and with a non-empty value |
| ClientService.QueryString | front/src/services/propertyService.ts:47 | the query string is empty exactly when there are no parameters |
| ClientService.QueryLookup | front/src/services/propertyService.ts:40-45 | each key's value is its field's, when that field is truthy |
| ClientService.ParamsPresentIffTruthy | front/src/services/propertyService.ts:40-45 | a parameter is sent iff its field is truthy: empty strings and 0 are dropped |
| ClientService.ParamsInFixedOrder | front/src/services/propertyService.ts:40-45 | parameters appear in the order name, address, minPrice, maxPrice, page, pageSize |
| ClientService.FalsyFilterSendsNothing | front/src/services/propertyService.ts:40-45 | a filter of empty strings and zeros sends no parameter |
| ClientService.BuildEndpoint | front/src/services/propertyService.ts:37-48 | "/properties", with "?" and the query appended only when there is a parameter |
| ClientService.EnvelopeErrorText | front/src/services/propertyService.ts:23-25 | the envelope's error when non-empty, else the fallback; never empty |
| ClientService.Translate | front/src/services/propertyService.ts:28-34 | a TypeError whose message contains "fetch" becomes the connectivity error; every other error is unchanged |
| ClientService.Unwrap | front/src/services/propertyService.ts:8-27 | before the catch block: the envelope's data iff ok and successful; the rejection, the HTTP status error, or the body's read error otherwise |
| ClientService.Request | front/src/services/propertyService.ts:5-35 | success iff the response is ok and the envelope successful, giving its data; a non-ok status raises "HTTP error! status: N"; a failed envelope raises its error or the fallback; an unreadable body and a fetch rejection raise their error after translation |
| ClientService.HttpErrorCarriesStatus | front/src/services/propertyService.ts:17-19 | the HTTP error message is the fixed prefix followed by the status's digits, which give the status back |
| ClientService.ConnectivityOnlyFromFetch | front/src/services/propertyService.ts:17-34 | the connectivity error never comes from an HTTP status; from a rejection only through a TypeError mentioning fetch |
| ClientService.ServerEnvelopeSeenByClient | front/src/services/propertyService.ts:21-27 | a server success envelope yields its data; a server error envelope raises its error, or the fallback when it is empty |

## Left out

- Regular-expression semantics of the filter terms: they are passed to the store unescaped as patterns. The model matches plain substrings with ASCII case folding. Metacharacters and Unicode case folding are not modelled.
- PropertyQuery.Matches: assumes prices are stored as numbers (Decimal128), so that the inclusive price bounds compare numerically. The entity's `decimal` price carries no storage representation and no decimal serializer is registered; if the driver stores it as text, the store compares price strings in text order (a stored "250000" then fails a minimum of 50000). That order is not modelled.
- PropertyQuery.Matches: states substring containment, which is weaker than the store's regex match whenever a term holds regex metacharacters.
- Store ordering and concurrency: the collection is a sequence in store order. Concurrent writers are not modelled.
- Id representation: stored ids are text. The driver's conversion to and from 24-hex ObjectIds, and its error on other text, is not modelled.
- Repository.PropertyRepository.Create: the generated id is a parameter. The random ObjectId generator is not modelled.
- JSON parsing and serialisation, UTF-8 byte counts and camelCase naming are parameters or left out.
- MemoryStream buffering is modelled as a character stream. The response's "already started" state is left out.
- Logging, async/await, cancellation and the clock: the current year is a parameter.
- The unused reflection-driven maps between images or traces and property records.
- The health endpoints, the seeding at start-up and every UI component.
- URLSearchParams percent-encoding is not modelled.
- JavaScript numbers are integers here, so NaN and fractional prices are not modelled.
- The client's calls other than the listing: fetch of one property, create, update, delete. They differ from the listing only in their endpoint and method.
- api/RealEstateAPI.Core/DTOs/PropertyFilterDto.cs is not part of this model. The filter defaults of page 1 and page size 10 are assumed; the tests accept them.

## Findings

| source | as written | input that shows it | evidently intended | confidence | as-written member | corrected member |
|---|---|---|---|---|---|---|
| api/RealEstateAPI.Repository/PropertyRepository.cs:66 | the skip `(Page - 1) * PageSize` is computed in 32-bit integers and wraps around | Page = 42949674, PageSize = 100: the filter validator would accept it, though the application never runs that validator on requests (api/RealEstateAPI.API/Program.cs:29 only registers the validators), and the skip is 4 instead of 4294967300, so matches 5 to 104 come back | the page at offset (page-1)*size, empty beyond the matches | high, not executed | PropertyQuery.SkipOverflowExample | PropertyQuery.QueryIsPage |
| api/RealEstateAPI.Core/Validators/PropertyDtoValidator.cs:22-33 | `^[A-Z0-9-_]+$` and `^[a-fA-F0-9]{24}$` under .NET semantics, where `$` also matches before a final line feed | IdOwner = "507f1f77bcf86cd799439011\n" (25 characters) and CodeInternal = "PROP-001\n" are accepted | whole-string matches: exactly 24 hex digits, and code characters only | high, not executed | Validation.PatternsAcceptTrailingLineFeed | Validation.AcceptedPropertyIdsAreCanonical |
| api/RealEstateAPI.API/Middleware/ResponseMiddleware.cs:79-80 | the buffer is written and then copied to the client stream from its current position, which is the end | any completed request, e.g. status 200 with body "[]": the client stream receives nothing, and the response body is left on the closed buffer | rewind before copying, and restore the client stream as the body, so the client receives the envelope | high, not executed | Middleware.InvokeAsWritten | Middleware.Invoke |
| api/RealEstateAPI.API/Middleware/ResponseMiddleware.cs:24-42 | the buffer declared with `using` inside the try block is disposed before the catch runs, and the body still points at it | a handler that throws "boom": the fault envelope's write goes to the closed buffer and raises instead of reaching the client | restore the client stream before writing the fault envelope | medium, not executed | Middleware.ClientStreamExample | Middleware.Invoke |
