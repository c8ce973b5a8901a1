# express-starter request pipeline, in Dafny

A model of the decisions the express-starter service makes for every
request and at start-up. It covers:

- the id validation middleware (`validateId`);
- the two `ErrorResponse` constructors;
- the error middleware: the malformed-JSON translator and the terminal
  error handler, each in its older and its newer version, and the 404
  handler for unmatched routes;
- the `asyncHandler` wrapper;
- the product controllers;
- how the logger builds, formats and routes its entries;
- start-up validation of the environment (`validateEnvironmentVariables`):
  masking, defaulted-variable detection, the `MONGO_URI` pattern and the
  order of what gets logged.

Files:

- `js.dfy` (module `Js`) gives the JavaScript semantics the code relies on:
  - values, with objects as ordered property lists;
  - object spread, property reads, truthiness and lodash `isEmpty`;
  - template-string conversion and loose `==`.
- `http.dfy` describes what a middleware can do: call `next` (with or
  without an error) or send `res.status(s).json(body)`.
- The other files follow the repository's directories:
  - `error_response.dfy` covers both `ErrorResponse` constructors;
  - `validation.dfy` covers middleware/validation/;
  - `error_middleware.dfy` covers the newer middleware in middleware/error/;
  - `legacy_middleware.dfy` covers the three files directly under middleware/ that
    app.js mounts;
  - `async_handler.dfy` covers the async wrapper;
  - `logger.dfy` covers utils/logger.js;
  - `config.dfy` covers config/index.js;
  - `product_controller.dfy` covers controllers/product.js.
- `error_logging.dfy` has no counterpart file. It combines the error
  middleware with the logger to state what gets logged for each error.

Pure code is modelled as functions and lemmas. The two pieces of code that
change state step by step are modelled as classes:

- the environment validator's copy of `process.env`, its log lines and its
  exit code (`Config.EnvValidator`, with loops over the names and the
  error messages);
- the product store behind the controllers (`ProductController.Products`).

The product controllers follow the revision in `controllers/product.js`:
every response is a 200 or 201, there is no 404 for a missing document, and
the update is a single `findByIdAndUpdate` with `{ new: true }`. Later
descriptions of the service give those handlers existence checks and 404
answers. The model follows the code.

## Model

| member | source | states |
|---|---|---|
| ErrorResponses.NewErrorResponse | utils/error-handling/ErrorResponse.js:6-17 | The positional constructor builds an Error that is not an instance of the object-form class. Its message and statusCode are the arguments as given. `shouldIncludeStack` is the option when that is truthy, else false. It has no `details` and no `shouldLogStack`. |
| ErrorResponses.NewErrorResponseFromObject | middleware/validation/index.js:1 | The object-form constructor builds an instance of its own class, assumed to extend Error. Its message and statusCode are copied from the argument object. |
| Http.MessageAndStatus | middleware/validation/index.js:11 | The `{ message, statusCode }` literal reads back the message and code it was built from. |
| Http.CountAppend | utils/asyncHandler.js:6 | Counting `next` calls and responses is additive over concatenated runs. |
| Validation.HexRunIsExact | middleware/validation/index.js:3 | The hand-written matcher for `^[a-f\d]{n}$` accepts a string exactly when it is n hex digits. |
| Validation.IsValidObjectId | middleware/validation/index.js:3 | `VALID_OBJECT_ID_REGEX.test` is true iff the text is 24 hex digits of either case. |
| Validation.ValidateId | middleware/validation/index.js:5-27 | Always exactly one call to next. A falsy id gives a 400 error with "'id' is required.". A truthy id whose text is not 24 hex digits gives a 404 error naming the resource and id. next() has no argument iff the id is truthy and well formed. |
| Validation.NotFoundMessage | middleware/validation/index.js:19 | The 404 message holds the resource label and the id text verbatim, each at a fixed place in "No … found with ID: '…'.". |
| Validation.EmptyIdIsRequiredError | middleware/validation/index.js:9-13 | Presence is checked before format: an empty id is a 400, never a 404. |
| Validation.UpperCaseIdsAccepted | middleware/validation/index.js:3 | The `i` flag makes upper-casing a-f irrelevant to the verdict. |
| Validation.NumericIdIsNeverAccepted | middleware/validation/index.js:16 | A numeric id is judged on its decimal text: 0 is a 400 and every other number a 404. |
| Validation.ResourceOnlyNamedInNotFound | middleware/validation/index.js:21 | The resource label affects only the 404 message: off that path the result does not depend on it. |
| Validation.ValidTestIdIsObjectId | test/product/test-data.js:18 | The tests' valid id is 24 hex digits. |
| Validation.ValidTestIdPasses | test/validation-middleware/validation-unit.spec.js:24-36 | The test's valid id passes with a bare next(). |
| Validation.InvalidTestIdNotFound | test/validation-middleware/validation-unit.spec.js:54-70 | The test's id "1234" gives a 404 with "No product found with ID: '1234'.". |
| ErrorMiddleware.InvalidJsonBodyHandler | middleware/error/invalidJSONBodyHandler.js:6-16 | One call to next. A SyntaxError with a body becomes a 400 ErrorResponse with the fixed message. Any other error is dropped: next() has no argument. The original error is never forwarded. |
| ErrorMiddleware.ErrorHandler | middleware/error/errorHandler.js:6-22 | One response and never next. A known ErrorResponse is answered with its own status, message and details (exactly those keys). Anything else gets 500 and the fixed apology (keys success and message only). |
| ErrorMiddleware.UnknownErrorsAreIndistinguishable | middleware/error/errorHandler.js:16-21 | Every unknown failure gets the identical response, whatever it carries, so nothing leaks. |
| ErrorMiddleware.PositionalErrorsAreUnknownHere | middleware/error/errorHandler.js:8 | An error from the positional constructor fails the `instanceof` test and is answered 500, whatever its status. |
| ErrorMiddleware.MalformedJsonIsAnswered400 | middleware/error/invalidJSONBodyHandler.js:7-14 | Chaining the translator into the handler answers a malformed body with 400 and the fixed message. |
| ErrorMiddleware.BadIdIsAnswered404 | middleware/validation/index.js:16-24 | Chaining validateId into the handler answers a malformed id with 404 and the message naming it. |
| LegacyMiddleware.ErrorHandler | middleware/errorHandler.js:4-8 | The mounted handler always sends 500 `{ success: false, message: 'Internal server error.' }` and never calls next. |
| LegacyMiddleware.ErrorHandlerIgnoresItsInputs | middleware/errorHandler.js:4-8 | Its response depends on neither the error nor the request. |
| LegacyMiddleware.InvalidJsonBodyHandlerAsWritten | middleware/invalidJSONBodyHandler.js:3-8 | As written: one call to next. A malformed body forwards a positional-constructor error. Anything else calls next(). |
| LegacyMiddleware.AsWrittenErrorLosesStatus | middleware/invalidJSONBodyHandler.js:5 | The forwarded error carries the whole `{ message, statusCode }` object as its message, and its own statusCode is undefined (falsy). |
| LegacyMiddleware.InvalidJsonBodyHandler | middleware/invalidJSONBodyHandler.js:3-8 | Corrected: the forwarded error has status 400, the fixed message and `shouldIncludeStack` false. It never forwards the original error. |
| LegacyMiddleware.RevisionsAgreeOffTheErrorPath | middleware/invalidJSONBodyHandler.js:4-7 | The written and corrected handlers agree on every error that is not a malformed body. |
| LegacyMiddleware.InvalidRouteHandler | middleware/invalidRouteHandler.js:4-10 | One 404 response, never next. The body is exactly success false, the message "Cannot METHOD URL" and the request's traceId. |
| LegacyMiddleware.RouteMessageNamesTheRequest | middleware/invalidRouteHandler.js:7 | The method and url can be read back unchanged from the 404 message. |
| LegacyMiddleware.UnmatchedRouteExample | middleware/invalidRouteHandler.js:7-8 | GET /nope is answered "Cannot GET /nope" with the request's trace id. |
| AsyncHandlers.AsyncHandler | utils/asyncHandler.js:5-7 | The handler's own effects are kept as a prefix and the response count is unchanged. A rejection adds exactly one next(reason) at the end. Other outcomes add nothing. A synchronous throw escapes the wrapper, and nothing else does. |
| AsyncHandlers.ExactlyOneOutcome | utils/asyncHandler.js:6 | For a handler that either answers once or rejects without answering, the wrapped run does exactly one thing: send the response, or forward the rejection to next. |
| AsyncHandlers.FulfilledIsNotForwarded | utils/asyncHandler.js:6 | The wrapper never calls next for a handler that fulfils. |
| AsyncHandlers.RejectionReachesNextUnchanged | test/product/product-unit.spec.js:45-60 | A store rejection with TEST_ERROR reaches next once, with its name and message unchanged. |
| ProductController.ToDoc | controllers/product.js:4 | A stored document reads back its own `_id`. |
| ProductController.FoundDocumentsReadBack | controllers/product.js:4-5 | `find()` lists one document per stored product, in store order. Each reads back its product's `_id` and every other field. With unique ids each is exactly what `findById` returns for its id. |
| ProductController.IndexOf | controllers/product.js:10 | The index found holds the id, and -1 means the id is absent. |
| ProductController.Without | controllers/product.js:15 | The body's fields without `_id`, keeping only properties of the original. |
| ProductController.Fields | controllers/product.js:15 | A body never supplies the document's `_id`. |
| ProductController.SuccessBody | controllers/product.js:5 | `{ success: true, data }` reads back true and the data given. |
| ProductController.FindDoc | controllers/product.js:10 | `findById` gives null iff no document has that id. Otherwise it gives one of the store's documents, carrying that id. |
| ProductController.FindDocIsTheOne | controllers/product.js:10 | With unique ids, `findById` returns the one document with that id. |
| ProductController.CreatedIsFound | controllers/product.js:15 | After `create` the ids stay unique and the new document is found by its id. |
| ProductController.Removed | controllers/product.js:29 | Deleting shrinks the store by one iff the id was present. With unique ids, every other document is kept, none with that id remains, and ids stay unique. |
| ProductController.DropAt | controllers/product.js:29 | Removing one position of a store with unique ids removes exactly that document. |
| ProductController.Updated | controllers/product.js:21-23 | An update keeps the store's length and every id in place. Every document with another id is unchanged, and an absent id changes nothing. |
| ProductController.UpdateOfAbsentIdChangesNothing | controllers/product.js:21-24 | Updating an absent id changes nothing and answers `data: null` (no 404 in this revision). |
| ProductController.UpdateMergesBody | controllers/product.js:21-23 | After an update, each field the body names has the body's value and every other field keeps its old value. The id is kept. |
| ProductController.DocGet | controllers/product.js:10 | A document's non-`_id` fields are its stored fields. |
| ProductController.WithoutLookup | controllers/product.js:15 | Dropping `_id` leaves every other field's value unchanged. |
| ProductController.WithoutKeys | controllers/product.js:15 | Dropping `_id` leaves every other key present iff it was present. |
| ProductController.WithoutKeepsUnique | controllers/product.js:15 | Dropping `_id` keeps the keys distinct. |
| ProductController.Products.constructor | controllers/product.js:1 | The store starts with the given documents, no calls and no responses. |
| ProductController.Products.GetAllProducts | controllers/product.js:3-6 | One `find` call. On failure: a rejection with the store's error and nothing sent. Otherwise exactly one 200 with every document. The store is unchanged. |
| ProductController.Products.GetProductById | controllers/product.js:8-12 | One `findById` with the request's id. On failure: a rejection and nothing sent. Otherwise one 200 with the document, or `data: null` when it is absent. The store is unchanged. |
| ProductController.Products.CreateProduct | controllers/product.js:14-17 | One `create` with the body. On failure: a rejection, nothing sent, store unchanged. Otherwise the new document is appended, can be found by its id, and is sent with 201. Ids stay unique. |
| ProductController.Products.UpdateProduct | controllers/product.js:19-25 | One `findByIdAndUpdate(id, body, { new: true })` and no existence probe. On failure: a rejection, nothing sent, store unchanged. Otherwise the store is updated and the new document (or null) is sent with 200. |
| ProductController.Products.DeleteProduct | controllers/product.js:27-31 | One `findByIdAndDelete(id)`. On failure: a rejection, nothing sent, store unchanged. Otherwise the id is absent afterwards and the removed document (or null) is sent with 200. |
| Logger.ErrorText | utils/logger.js:117 | `${name}: ${message}` is never empty, so the `\|\| message` fallback never applies. |
| Logger.ErrorEntryKeysDistinct | utils/logger.js:101-129 | The six entry keys are distinct. |
| Logger.BaseEntryShape | utils/logger.js:101-111 | The entry is exactly traceId, message, file, method, category in that order, with distinct keys and each value read from the source. |
| Logger.ErrorFieldsShape | utils/logger.js:124-129 | The error fields are message, stackTrace and category, carrying the error text, the stack flag and the category. |
| Logger.ErrorEntryKeysShape | utils/logger.js:124-129 | Spreading the error fields over a base entry overwrites message and category in place and appends only stackTrace. |
| Logger.SpreadKeys | utils/logger.js:124-129 | The key order after that spread. |
| Logger.ErrorEntryLookups | utils/logger.js:124-129 | After the spread, message, stackTrace and category have the error's values, and the other keys keep the base values. |
| Logger.TraceIdChoice | utils/logger.js:93-99 | The trace id comes from `info.meta` whenever info has its own meta (even when that gives undefined), and from the request context otherwise. |
| Logger.PlainEntryFields | utils/logger.js:103-111 | Without error metadata the fields come from info when its message is a string, and are flattened out of `info.message` otherwise. |
| Logger.ErrorEntryFields | utils/logger.js:114-130 | With error metadata the message is `name: message` of the error. The category is UNHANDLED iff the status code is falsy and KNOWN iff it is truthy. A stackTrace key is added last. |
| Logger.StackTraceFlag | utils/logger.js:121-122 | The stack is logged iff the trace is non-empty and the error is unknown or asks for its stack. An empty trace gives `false` itself. |
| Logger.Category | utils/logger.js:128 | The category is UNHANDLED iff the error's status code is falsy, and KNOWN iff it is truthy. |
| Logger.BuildLogEntry | utils/logger.js:91-133 | Building the entry throws iff own meta is nullish, or the message is nullish, or meta has an error that is null. Otherwise the entry has the five base keys in order, plus stackTrace last iff meta carries an error. |
| Logger.IncludeStackOptionIsNotRead | utils/logger.js:121-122 | The logger reads `shouldLogStack`, which the positional constructor never sets. So an error with a status code never has its stack logged, even when built with `shouldIncludeStack: true`. |
| Logger.OnlyDefinedKey | utils/logger.js:144-146 | With distinct keys and k defined, k is the only defined key iff every other value is undefined. |
| Logger.DefinedAtLeastOnce | utils/logger.js:146 | A defined key makes the defined count at least one. |
| Logger.NoneDefined | utils/logger.js:146 | The defined count is zero iff every value is undefined. |
| Logger.FormatForLocal | utils/logger.js:140-153 | The local format throws iff building the entry does. Otherwise it prints `timestamp level : message` iff the message is truthy and every other entry property is undefined, and the header with the whole entry in every other case. |
| Logger.MessageOnlyTest | utils/logger.js:144-146 | With distinct keys, "truthy message and one defined property" means the message is truthy and every other property is undefined. |
| Logger.EntryHasUniqueKeys | utils/logger.js:91-133 | Every entry has distinct keys, either the five base keys or those plus stackTrace. |
| Logger.PlainInfoEntry | utils/logger.js:93-111 | Outside a request, a plain message's entry is the base entry read from info itself, with no trace id and no error fields. |
| Logger.PlainMessageIsShort | utils/logger.js:78-80 | A plain `logger.info(text)` outside any request prints as `timestamp level : text`. |
| Logger.FormatForProduction | utils/logger.js:159-166 | The production format throws iff building the entry does. Otherwise it gives timestamp, then level, then the entry unchanged. |
| Logger.EntryAfterHeader | utils/logger.js:160-164 | No entry key is timestamp or level, so spreading the entry after them appends it. |
| Logger.SelectTransport | utils/logger.js:14-39 | The production options (level info, no colour, production format) are chosen iff NODE_ENV is exactly "production". Otherwise the development options are chosen (level debug, colour, local format). |
| ErrorLogging.ErrorLoggerInfo | utils/logger.js:56-63 | The error logger's info object carries the request line as its message and the error, trace and trace id under its own meta. |
| ErrorLogging.ErrorInfoEntry | utils/logger.js:96-129 | For any non-nullish error the error logger's entry is built. It has the request's trace id, the `name: message` text, the category from the status code and the stack flag. |
| ErrorLogging.UnhandledEntry | utils/logger.js:121-128 | An error without a status code is logged UNHANDLED, with its stack iff a trace exists. |
| ErrorLogging.KnownEntry | utils/logger.js:121-128 | An error with a status code and no `shouldLogStack` is logged KNOWN without its stack. |
| ErrorLogging.AsWrittenJsonErrorLoggedUnhandled | middleware/invalidJSONBodyHandler.js:5 | As written, the malformed-body error is logged as UNHANDLED, with its stack whenever a trace exists. |
| ErrorLogging.AsWrittenJsonErrorMessageIsLost | middleware/invalidJSONBodyHandler.js:5 | As written, its logged message is "Error: [object Object]". |
| ErrorLogging.ObjectMessageEntry | utils/logger.js:117 | An Error whose message is an object is logged as "Error: [object Object]". |
| ErrorLogging.CorrectedJsonErrorLoggedKnown | middleware/invalidJSONBodyHandler.js:5 | Corrected, the malformed-body error is logged KNOWN with "Error: Invalid JSON body provided." and no stack. |
| Config.PassingConfigSelectsDevelopmentTransport | config/index.js:29-32 | A NODE_ENV that passes the schema (local, dev, qa, stage, prod) is never "production", so a valid configuration always gets the development log transport. |
| Config.Mask | config/index.js:117 | `replace(/./g, '*')` keeps the length, keeps line terminators and turns every other character into '*'. |
| Config.MaskIdempotent | config/index.js:117 | Masking twice masks nothing more. |
| Config.MaskRevealsOnlyShape | config/index.js:117 | Two values mask alike iff they have the same length and the same line breaks in the same places. |
| Config.MaskedEqualHaveSameShape | config/index.js:117 | Equal masks imply the same shape. |
| Config.SameShapeMaskEqual | config/index.js:117 | The same shape implies equal masks. |
| Config.SafelyLogValue | config/index.js:109-123 | Logging throws iff the variable is masked and its value is defined but not a string. |
| Config.OnlyMongoUriIsMasked | config/index.js:31-38 | MONGO_URI is the only masked variable. |
| Config.UndefinedIsLoggedAsUndefined | config/index.js:117 | An unset variable is logged as `NAME: undefined`, masked or not. |
| Config.UnmaskedValuesAreVerbatim | config/index.js:121 | Every other variable is logged with its value verbatim. |
| Config.MongoUriIsNeverLoggedInClear | config/index.js:115-119 | No character of the connection string except its line breaks reaches the log. |
| Config.FilterDefaulted | config/index.js:82-87 | A name survives the filter iff it is listed and defaulted. |
| Config.FilterKeepsOrder | config/index.js:82-87 | The filter keeps the schema's order. |
| Config.DefaultedNames | config/index.js:82-87 | The defaulted names are exactly the schema names that have a default and whose validated value is loosely unequal to the process value. They keep schema order. |
| Config.ValidationLog | config/index.js:65-104 | The validation logs nothing else: a title and one line per schema variable; a title and one line per defaulted variable when there are any; and SUCCESS, or FAILURE and one line per validator message. |
| Config.NodeEnvIsNeverDefaulted | config/index.js:29-32 | NODE_ENV has no default and is never reported as defaulted. |
| Config.CoercedPortIsNotDefaulted | config/index.js:84 | A PORT given as text and coerced to the same number is not reported, because loose equality compares it with its text. |
| Config.MissingPortIsDefaulted | config/index.js:33 | A missing PORT filled with 3000 is reported. |
| Config.NameRunIsExact | config/index.js:37 | The matcher for `[\w-]+$` accepts exactly non-empty runs of word characters and '-'. |
| Config.HostRunIsExact | config/index.js:37 | The matcher for `[^/]+\/[\w-]+$` accepts exactly a split into a non-empty host without '/', a '/', and a name. |
| Config.MatchesMongoUri | config/index.js:37 | The MONGO_URI pattern holds iff the text is the scheme, a non-empty host without '/', one '/', and a non-empty name of `[\w-]` characters. |
| Config.SchemeHostNameMatches | config/index.js:37 | Every such scheme/host/name string matches. |
| Config.DefaultMongoUriMatches | config/index.js:36-37 | The default connection string satisfies its own pattern. |
| Config.TrailingSlashFails | config/index.js:37 | A connection string ending in '/' (no database name) fails the pattern. |
| Config.ErrorLoggedIffInvalid | config/index.js:99-103 | An error-level line is logged iff validation fails. |
| Config.FailureLogsEveryMessage | config/index.js:130-136 | On failure the log ends with FAILURE followed by every validator message, in order. |
| Config.WarningIffDefaulted | config/index.js:90-96 | A warning is logged iff some variable was defaulted. |
| Config.InitialValuesComeFirst | config/index.js:71-75 | The log starts with INITIAL VALUES, then one line per schema variable as found before validation, in schema order. |
| Config.DefaultsFollowInitialValues | config/index.js:89-96 | When some variable was defaulted, the DEFAULTS SET warning follows the initial block directly. It is followed by one `safelyLogValue` line per defaulted variable, read from the validated copy, in schema order. |
| Config.DefaultsBlockLine | config/index.js:90-96 | The DEFAULTS SET block is the Warn title followed by one line per defaulted variable, the i-th at position 1 + i. |
| Config.EnvValidator.constructor | config/index.js:20 | The copy is the process environment, with nothing logged and no exit. |
| Config.EnvValidator.LogValues | config/index.js:72-75 | One line per name is appended, read from the copy, in order. |
| Config.EnvValidator.LogAndExit | config/index.js:130-138 | FAILURE then every message is appended, and the exit code becomes 1. |
| Config.EnvValidator.LogInitialValues | config/index.js:71-75 | The INITIAL VALUES block is appended. |
| Config.EnvValidator.LogDefaults | config/index.js:82-96 | The DEFAULTS SET block is appended, and only when some variable was defaulted. |
| Config.EnvValidator.Conclude | config/index.js:99-103 | SUCCESS is appended, or FAILURE with the messages and exit code 1. |
| Config.EnvValidator.ValidateEnvironmentVariables | config/index.js:65-104 | The copy becomes the validated values and the log grows by exactly the validation log. The exit code is set to 1 iff validation fails. |
| Js.AssignLookup | utils/logger.js:124-129 | With distinct keys, after an object spread each key reads the spread value if it was spread and the old value otherwise. |
| Js.NumberEqualsItsText | config/index.js:84 | Loose equality holds between a number and its decimal text. |
| Js.DecimalTextReadsBack | config/index.js:84 | `Number` reads a natural number's decimal text back as that number. |
| Js.NegativeTextReadsBack | config/index.js:84 | `Number` reads "-" followed by a positive number's decimal text back as its negation. |
| Js.DecimalRoundTrip | middleware/validation/index.js:16 | A natural number's decimal text reads back as that number. |
| Js.NumberTextLength | middleware/validation/index.js:16 | A safe integer's text is at most 17 characters long (16 digits and a sign), so it is never a 24-character id. |

## Left out

- The ajv engine. The validator's verdict, the validated values and its error messages are inputs to `Config.EnvValidator.ValidateEnvironmentVariables`. Coercion, defaults, the enum and the custom messages of the ajv-errors plug-in are therefore not derived. The `MONGO_URI` pattern and the masking are modelled on their own.
- `process.env` holds strings only. `Config.Loggable` therefore requires MONGO_URI to be a string or unset in the maps logged, which is the case that cannot throw.
- `process.exit(1)` is recorded as the validator's exit code. Nothing after it is modelled.
- winston and express-winston are not modelled beyond the fields read from the info object. This leaves out colourising, timestamps, levels and filtering, and meta fields other than error, trace and traceId.
- `JSON.stringify` is not modelled. The long local line and the production line are kept as the entry itself, not as text.
- Trace-id generation and `express-http-context` are not modelled: the trace id is an input.
- Mongoose and MongoDB are modelled as an ordered store with unique ids. New ids are supplied by the caller and a store failure is a `fault` input. Schema validation and casting are not part of this model. The body's keys are merged as literal fields: update operators such as `$set` or `$inc`, dotted paths, and an array body given to `create` (several documents) are not modelled. `ProductController.UpdateMergesBody` holds for this literal merge only.
- ProductController.Products.GetAllProducts: the value `return res...json(...)` returns (the response object) is modelled as `Undefined`, since nothing reads it.
- `routes/subroutes/product.js` mounts the controllers without `asyncHandler` or `validateId`. The model states what each piece does, not Express's routing table. Express's default handling of an unhandled rejection is not modelled.
- The object-form `ErrorResponse` (utils/error/ErrorResponse.js) is not part of this model beyond the `message` and `statusCode` it is given. So `details`, and any `shouldLogStack` it may set, are not modelled.
- ErrorResponses.NewErrorResponseFromObject: the model assumes that this class extends Error and keeps the inherited name "Error", like the positional class. Its `instanceof Error` and the "Error: …" text it would be logged with rest on that assumption; only its `message` and `statusCode` are evidenced.
- Numbers are the safe integers only. Fractions, NaN, Infinity and -0 are left out, and `Number(text)` is modelled for plain decimal text.
- Config.DefaultedNames: because `Number(text)` reads only plain decimal text, a PORT given as "3000.0", "3e3" or "0x0BB8" and coerced to 3000 is reported as defaulted here. JavaScript's loose equality finds it equal to 3000 and does not report it.
- Js.ToStr: every object converts to `[object Object]`. An Error's own `toString` (`name: message`) is not modelled, because the core never converts an Error object to text.
- ProductController.Fields: a `_id` in the request body is dropped. Mongoose's `create` keeps a supplied `_id`, and an update that changes `_id` is refused. Neither case is modelled.
- Loose equality between objects, non-enumerable properties and prototype chains beyond the class tags are not modelled.
- Strings are sequences of Unicode scalar values. JavaScript's `.` matches a UTF-16 code unit, so a character outside the Basic Multilingual Plane masks to two '*' in JavaScript and one here.
- `dotenv`, `utils/startup.js`, `services/dbService.js`, `routes/index.js` and the server start-up are not part of this model (I/O and wiring only).

## Findings

| source | as written | input that shows it | evidently intended | confidence | as-written member | corrected member |
|---|---|---|---|---|---|---|
| middleware/invalidJSONBodyHandler.js:5 | passes `{ message, statusCode: 400 }` as the first argument of the positional `ErrorResponse(message, statusCode, options)`, so the error's message is that object and its statusCode is undefined | a request whose JSON body fails to parse (a SyntaxError with `body`) | an error with message "Invalid JSON body provided." and status 400, logged KNOWN without its stack | not executed | LegacyMiddleware.InvalidJsonBodyHandlerAsWritten (with LegacyMiddleware.AsWrittenErrorLosesStatus, ErrorLogging.AsWrittenJsonErrorLoggedUnhandled, ErrorLogging.AsWrittenJsonErrorMessageIsLost) | LegacyMiddleware.InvalidJsonBodyHandler (with ErrorLogging.CorrectedJsonErrorLoggedKnown) |
