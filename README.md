# Vehicle store of the auto-deal API, in Dafny

This project models the core of the auto-deal vehicle API in Dafny:

- **Entity validation.** The pydantic entities `Vehicle`, `VehicleBrand` and `VehicleSold` validate a payload field by field. They collect one error per failing field, in declaration order.
- **The store.** Three tables (brands, vehicles, sale records) with their keys, uniqueness and foreign keys. `VehicleRepositoryAdapter` adds, updates and deletes rows in them.
- **`VehicleService`.** It validates a payload, then calls the repository once.
- **The error kinds and two mapping layers.** `handle_sqlalchemy_exceptions` turns storage errors into domain errors. `http_exception_handler` and `event_exception_handlers` turn errors into HTTP responses or swallow them.

Modules, one per source concern:

- `Wrappers`: `Option` and `Result`. A Python call that returns or raises becomes a `Result`.
- `Fields`: the payload (`map<string, Value>`), pydantic's error types, and one check function per field constraint.
- `VehicleEntity`, `BrandEntity`, `SoldEntity`: the three entities. Each has a validity predicate and a `Create` returning the entity or its field errors.
- `Exceptions`: `CustomException` and the eight error kinds. It also covers the Python and SQLAlchemy exceptions that reach the handlers.
- `OrmExceptions`, `ExceptionHandler`: the two decorators, as functions on the wrapped call's outcome.
- `Schema`: the table rows, the `Tables` value and the constraints the schema declares.
- `RepositorySpec`: the store invariant and, for each adapter method, a function giving the new tables and the result from the old tables.
- `Repository`: the class `VehicleRepositoryAdapter`. Its fields are the three tables and the autoincrement sequences. Each method updates them step by step and is proved to do what its `RepositorySpec` function says, keeping the invariant.
- `StoreProperties`: lemmas about several operations:
  - save and update against get
  - the two listings partitioning the vehicles
  - the sale lifecycle initialize → confirm → revert
  - how store errors reach the HTTP caller
- `Service`: the class `VehicleService`.

Conventions:

- Time (`datetime.now()`) is a parameter `now`.
- Timestamps are ISO text, so `isoformat()` is the identity.
- Prices are integers.

The store invariant `RepositorySpec.Valid` has two parts:

- Everything `models.py` declares:
  - primary keys below the next autoincrement value
  - unique brand names
  - unique models
  - every vehicle's brand exists
  - every record's vehicle exists
- What the adapter relies on:
  - at most one sale record per vehicle
  - rows written from validated entities
  - each record either a draft (no status, no date) or confirmed (status "sold" and a date)

## Model

| member | source | states |
|---|---|---|
| Fields.CheckStr | vehicle/domain/entities/vehicle.py:10-11 | `str` with min/max length: passes exactly for a text value of length in range; otherwise one error, naming that field |
| Fields.CheckText | vehicle/domain/entities/vehicle_sold.py:9 | a required `str` field passes exactly when present as text; otherwise one error for the field |
| Fields.CheckOptionalText | vehicle/domain/entities/vehicle_sold.py:11 | an `Optional[str]` field passes when absent, None or text; otherwise one error for the field |
| Fields.CheckIntAtLeast | vehicle/domain/entities/vehicle.py:12 | `int` with `ge`: passes exactly for an integer at least the bound; otherwise one error for the field, `int_parsing` for text |
| Fields.CheckInt | vehicle/domain/entities/vehicle_sold.py:8 | a required `int` field passes exactly when present as an integer; text is `int_parsing` |
| Fields.CheckOptionalInt | vehicle/domain/entities/vehicle_sold.py:7 | an `Optional[int]` field passes when absent, None or an integer; text is `int_parsing` |
| Fields.CheckNumberAbove | vehicle/domain/entities/vehicle.py:14 | `float` with `gt`: passes exactly for a number above the bound; otherwise one error for the field, `float_parsing` for text |
| Fields.CheckNumber | vehicle/domain/entities/vehicle_sold.py:10 | a required `float` field passes exactly when present as a number; text is `float_parsing` |
| Fields.CheckDateTime | vehicle/domain/entities/vehicle_brand.py:12-13 | a required `datetime` field passes exactly when present as a date-time; None or absent is one error, text a date-time parsing error |
| VehicleEntity.Create | vehicle/domain/entities/vehicle.py:6-14 | succeeds iff every field constraint holds; the entity is then valid and keeps every field (id when given, sold = None); a failure carries at least one error |
| VehicleEntity.CreateOfPayload | vehicle/domain/entities/vehicle.py:10-14 | a valid entity's own fields construct it again |
| VehicleEntity.BrandNameRule | vehicle/domain/entities/vehicle.py:10 | with the other fields acceptable, construction succeeds iff 1 <= \|brand_name\| <= 100 |
| VehicleEntity.ModelRule | vehicle/domain/entities/vehicle.py:11 | ... iff 1 <= \|model\| <= 100 |
| VehicleEntity.YearRule | vehicle/domain/entities/vehicle.py:12 | ... iff year >= 1886, no upper bound |
| VehicleEntity.ColorRule | vehicle/domain/entities/vehicle.py:13 | ... iff 1 <= \|color\| <= 50 |
| VehicleEntity.PriceRule | vehicle/domain/entities/vehicle.py:14 | ... iff price > 0 |
| VehicleEntity.ErrorNamesField | vehicle/domain/entities/vehicle.py:10 | an over-long brand name yields a too-long error naming brand_name with bound 100 |
| VehicleEntity.TextNumbersAreParsingErrors | vehicle/domain/entities/vehicle.py:12-14 | text in year or price is the single error `int_parsing` or `float_parsing` on that field |
| VehicleEntity.TestBoundaries | tests/vehicle/test_vehicle.py:26-234 | the test vectors: brand name, model and color "" or 400 chars, year 0 and price 0 rejected; "A", 100 chars (50 for color), years 1886 and 9999 and prices 1 and 1000000 accepted |
| BrandEntity.Create | vehicle/domain/entities/vehicle_brand.py:7-13 | succeeds iff 1 <= \|name\| <= 100 and both timestamps are date-times; keeps every field |
| BrandEntity.WithNameChangesOnlyName | tests/vehicle/test_vehicle_brand.py:91-94 | assigning a name changes the name only, and is not validated |
| BrandEntity.EqualityIsStructural | tests/vehicle/test_vehicle_brand.py:63-89 | two constructed brands are equal iff their fields are |
| BrandEntity.Rejections | tests/vehicle/test_vehicle_brand.py:22-56 | the name length rule; a 400-char name, a None or a missing timestamp is rejected |
| SoldEntity.Create | vehicle/domain/entities/vehicle_sold.py:5-14 | succeeds iff the required fields have their types and the optional ones are absent, None or typed; keeps every field, absent ones as None |
| SoldEntity.RequiredFields | vehicle/domain/entities/vehicle_sold.py:8-12 | leaving out vehicle_id, status, sold_price or user_id is a missing error for that field |
| SoldEntity.OptionalFieldsDefaultToNone | vehicle/domain/entities/vehicle_sold.py:7-14 | order_id, sold_date, created_at and updated_at default to None |
| SoldEntity.NonIntegerIdsRejected | tests/vehicle/test_vehicle_sold.py:27-50 | a text order_id or vehicle_id is rejected |
| SoldEntity.FixturePreserved | tests/vehicle/test_vehicle_sold.py:5-25 | the fixture record keeps all its given fields |
| Exceptions.Raise | vehicle/exceptions/custom_exception.py:5-8 | the exception stores the given kind, message and status code, with no range check |
| Exceptions.EightKinds | vehicle/exceptions/vehicle_exceptions.py:8-54 | exactly eight distinct kinds exist, and every error kind is one of them |
| Exceptions.DefaultStatusCode | vehicle/exceptions/custom_exception.py:5-8 | the status code defaults to 500; the string form is the message |
| OrmExceptions.HandleSqlAlchemyExceptions | vehicle/infrastructure/database/exceptions/orm_exceptions.py:15-35 | the decorated call fails iff the call fails; no SQLAlchemy error escapes it |
| OrmExceptions.TranslationTable | vehicle/infrastructure/database/exceptions/orm_exceptions.py:23-34 | NoResultFound → not found 404, MultipleResultsFound → 400, IntegrityError → already exists 409, any other SQLAlchemy error → database error 500, with those messages |
| OrmExceptions.PassThrough | vehicle/infrastructure/database/exceptions/orm_exceptions.py:21-22 | a result, or an error that is not a storage error, passes unchanged |
| ExceptionHandler.HttpExceptionHandler | vehicle/exceptions/exception_handler.py:52-156 | a response is produced exactly when the call raised; otherwise its value is returned |
| ExceptionHandler.EventExceptionHandlers | vehicle/exceptions/exception_handler.py:18-50 | every error is swallowed and the wrapper returns None; otherwise the value |
| ExceptionHandler.StatusCodeTable | vehicle/exceptions/exception_handler.py:58-153 | the status code of each clause: validation 400, custom kinds their own code, KeyError 400, ValueError 400, others 500 |
| ExceptionHandler.CustomKindsKeepStatus | vehicle/exceptions/exception_handler.py:66-129 | each custom kind responds with its own status code, and its message as both message and error |
| ExceptionHandler.ValidationBeforeValueError | vehicle/exceptions/exception_handler.py:58-65 | a validation error is also a ValueError, and still gets 400 "Validation error" with its errors |
| ExceptionHandler.ValueErrorResponse | vehicle/exceptions/exception_handler.py:138-145 | a ValueError gets 400 with the key "   message" (leading spaces) set to "Key error", and its text as error |
| ExceptionHandler.OtherErrorsHideDetail | vehicle/exceptions/exception_handler.py:146-153 | any other error gets 500 with the generic message and no detail |
| ExceptionHandler.NoErrorPassesThrough | vehicle/exceptions/exception_handler.py:23-57 | with no error, both decorators return the wrapped value (the event handler at lines 23-24, the HTTP handler at lines 56-57) |
| ExceptionHandler.StackedHandlers | vehicle/adapters/controllers/initialize_sale_controller.py:11-13 | under both decorators, as the initialize-sale, cancel-sale and sold-listing controllers stack them, a storage error becomes its domain error's code and message (409 for a duplicate) |
| ExceptionHandler.KeyErrorResponse | vehicle/exceptions/exception_handler.py:130-137 | a KeyError gets 400 "Key error" with `str(error)` as the error; for a plain key that is the key in single quotes |
| ExceptionHandler.KeyErrorStr | vehicle/exceptions/exception_handler.py:135 | `str(KeyError(key))` is `repr(key)`: at least two longer than the key, and opened and closed by the quote repr chooses |
| ExceptionHandler.QuoteFor | vehicle/exceptions/exception_handler.py:135 | repr uses double quotes exactly when the text holds a single quote and no double quote |
| ExceptionHandler.PlainKeyErrorStr | vehicle/exceptions/exception_handler.py:135 | a key with no quote, backslash, newline, carriage return or tab prints as itself in single quotes |
| ExceptionHandler.PlainKeyExample | vehicle/exceptions/exception_handler.py:135 | `str(KeyError("body"))` is `'body'` |
| ExceptionHandler.SingleQuoteKeyExample | vehicle/exceptions/exception_handler.py:135 | `str(KeyError("it's"))` is `"it's"` |
| ExceptionHandler.BothQuotesKeyExample | vehicle/exceptions/exception_handler.py:135 | a key holding both quotes keeps single quotes and escapes the single one |
| Schema.NextKeysAreFresh | vehicle/infrastructure/database/models.py:15-44 | the next autoincrement keys are not yet in use |
| Schema.BrandInsertConsistent | vehicle/infrastructure/database/models.py:15-16 | inserting a brand with a new name at the next key keeps the schema's constraints |
| Schema.VehicleInsertConsistent | vehicle/infrastructure/database/models.py:26-37 | inserting a vehicle with a new model and an existing brand keeps the constraints |
| Schema.SaleInsertConsistent | vehicle/infrastructure/database/models.py:44-45 | inserting a record for an existing vehicle keeps the constraints |
| RepositorySpec.SaleOf | vehicle/adapters/repositories/vehicle_repository_adapter.py:206-208 | the record found is one of the vehicle's records |
| RepositorySpec.GetBrandOn | vehicle/adapters/repositories/vehicle_repository_adapter.py:182-188 | the brand found has exactly the name; None means no brand has it |
| RepositorySpec.CreateBrandOn | vehicle/adapters/repositories/vehicle_repository_adapter.py:190-200 | inserts a brand iff the name is free (IntegrityError otherwise, nothing changed); only the brand table changes; keeps the invariant |
| RepositorySpec.ResolveBrand | vehicle/adapters/repositories/vehicle_repository_adapter.py:24-26 | the existing brand with that name, or a new one; only the brand table changes |
| RepositorySpec.SaveOn | vehicle/adapters/repositories/vehicle_repository_adapter.py:20-46 | keeps the store invariant |
| RepositorySpec.UpdateOn | vehicle/adapters/repositories/vehicle_repository_adapter.py:48-76 | keeps the store invariant |
| RepositorySpec.GetOn | vehicle/adapters/repositories/vehicle_repository_adapter.py:78-93 | fails with ValueError "Vehicle with id N not found" iff no row has the id; otherwise a valid entity with that id and sold = None |
| RepositorySpec.GetWithSoldOn | vehicle/adapters/repositories/vehicle_repository_adapter.py:95-100 | None iff no row has the id; otherwise that row and its record (if any) |
| RepositorySpec.InitializeSaleOn | vehicle/adapters/repositories/vehicle_repository_adapter.py:151-169 | keeps the invariant when the vehicle has no record yet |
| RepositorySpec.DraftInsertValid | vehicle/adapters/repositories/vehicle_repository_adapter.py:156-166 | a draft record for a vehicle with none keeps the invariant |
| RepositorySpec.ConfirmSaleOn | vehicle/adapters/repositories/vehicle_repository_adapter.py:171-180 | keeps the invariant |
| RepositorySpec.RevertSaleOn | vehicle/adapters/repositories/vehicle_repository_adapter.py:202-214 | keeps the invariant |
| Repository.VehicleRepositoryAdapter.constructor | vehicle/adapters/repositories/vehicle_repository_adapter.py:17-18 | the adapter starts on the given database |
| Repository.VehicleRepositoryAdapter.GetBrand | vehicle/adapters/repositories/vehicle_repository_adapter.py:182-188 | returns the id of the brand with exactly that name, or None when there is none |
| Repository.VehicleRepositoryAdapter.CreateBrand | vehicle/adapters/repositories/vehicle_repository_adapter.py:190-200 | performs CreateBrandOn |
| Repository.VehicleRepositoryAdapter.ResolveBrandId | vehicle/adapters/repositories/vehicle_repository_adapter.py:24-26 | performs ResolveBrand |
| Repository.VehicleRepositoryAdapter.Save | vehicle/adapters/repositories/vehicle_repository_adapter.py:20-46 | performs SaveOn and keeps the invariant |
| Repository.VehicleRepositoryAdapter.Update | vehicle/adapters/repositories/vehicle_repository_adapter.py:48-76 | performs UpdateOn and keeps the invariant |
| Repository.VehicleRepositoryAdapter.Get | vehicle/adapters/repositories/vehicle_repository_adapter.py:78-93 | returns GetOn |
| Repository.VehicleRepositoryAdapter.FindSale | vehicle/adapters/repositories/vehicle_repository_adapter.py:206-208 | finds the vehicle's record iff it has one |
| Repository.VehicleRepositoryAdapter.GetWithSold | vehicle/adapters/repositories/vehicle_repository_adapter.py:95-100 | returns GetWithSoldOn |
| Repository.VehicleRepositoryAdapter.ListedEntity | vehicle/adapters/repositories/vehicle_repository_adapter.py:111-119 | the entity a listing shows for one vehicle |
| Repository.VehicleRepositoryAdapter.ListedIds | vehicle/adapters/repositories/vehicle_repository_adapter.py:106-107 | exactly the vehicles with (or without) a record |
| Repository.VehicleRepositoryAdapter.ListByPrice | vehicle/adapters/repositories/vehicle_repository_adapter.py:106-119 | each vehicle with (or without) a record exactly once, nothing else, in non-decreasing price order |
| Repository.VehicleRepositoryAdapter.GetAllAvailable | vehicle/adapters/repositories/vehicle_repository_adapter.py:102-121 | exactly the vehicles with no record, each once, in price order, with sold = None |
| Repository.VehicleRepositoryAdapter.GetAllSold | vehicle/adapters/repositories/vehicle_repository_adapter.py:123-149 | fails with AttributeError iff some record has no date; otherwise each vehicle with a record once, in price order, embedding its record |
| Repository.VehicleRepositoryAdapter.InitializeSale | vehicle/adapters/repositories/vehicle_repository_adapter.py:151-169 | performs InitializeSaleOn, which is one new draft record |
| Repository.VehicleRepositoryAdapter.ConfirmSale | vehicle/adapters/repositories/vehicle_repository_adapter.py:171-180 | performs ConfirmSaleOn |
| Repository.VehicleRepositoryAdapter.RevertSale | vehicle/adapters/repositories/vehicle_repository_adapter.py:202-214 | performs RevertSaleOn |
| Repository.InsertionPoint | vehicle/adapters/repositories/vehicle_repository_adapter.py:108 | the index that splits a price-ordered listing into at most and above a price |
| Repository.InsertKeepsListing | vehicle/adapters/repositories/vehicle_repository_adapter.py:106-119 | inserting at that index extends the partial listing |
| StoreProperties.SaveSpec | vehicle/adapters/repositories/vehicle_repository_adapter.py:20-46 | succeeds iff the model is free; fresh id; the input's fields with that id; get then returns it; a brand created only if the name is new, kept even when the insert fails; other rows and records untouched |
| StoreProperties.UpdateSpec | vehicle/adapters/repositories/vehicle_repository_adapter.py:48-76 | AttributeError on an unknown id, IntegrityError on another vehicle's model, else only row vehicle_id changes; returns the input with that id, which get then returns; existing brands are kept, and a brand is created only when no brand has the name |
| StoreProperties.LookupsAgree | vehicle/adapters/repositories/vehicle_repository_adapter.py:78-100 | get fails exactly where get_with_sold returns None, and they agree on the fields |
| StoreProperties.StoredVehiclesRevalidate | vehicle/adapters/repositories/vehicle_repository_adapter.py:86-93 | the entity built from a stored row passes the entity's validation |
| StoreProperties.ListingsPartition | vehicle/adapters/repositories/vehicle_repository_adapter.py:102-149 | every vehicle is in exactly one listing; available entries are what get returns, sold entries add the record |
| StoreProperties.InitializeCreatesDraft | vehicle/adapters/repositories/vehicle_repository_adapter.py:151-169 | one new record at a fresh order id, with the vehicle's id, current price and user, no status or date; the vehicle moves from available to sold |
| StoreProperties.InitializeTwiceBreaksOneRecord | vehicle/adapters/repositories/vehicle_repository_adapter.py:151-169 | the adapter does not check for an existing record: a second call gives the vehicle two records |
| StoreProperties.ConfirmSetsSold | vehicle/adapters/repositories/vehicle_repository_adapter.py:171-180 | the record gets status "sold", the current price and date now; with no record nothing changes |
| StoreProperties.RevertIff | vehicle/adapters/repositories/vehicle_repository_adapter.py:202-214 | succeeds iff the record's status is "sold"; deletes only that record and the vehicle is available again; failure changes nothing |
| StoreProperties.DraftCannotBeReverted | vehicle/adapters/repositories/vehicle_repository_adapter.py:210-211 | an initialized but unconfirmed sale cannot be reverted |
| StoreProperties.SaleRoundTrip | vehicle/adapters/repositories/vehicle_repository_adapter.py:151-214 | initialize, confirm, revert restore every table; only the order-id sequence has advanced |
| StoreProperties.NotFoundIsBadRequest | vehicle/exceptions/exception_handler.py:138-145 | get's not-found error reaches the HTTP caller as 400 under the ValueError clause, not 404 |
| StoreProperties.DuplicateModelIsServerError | vehicle/adapters/controllers/create_vehicle_controller.py:9-10 | the create and update controllers apply the HTTP decorator alone, so saving a taken model, or updating to another vehicle's model, reaches the caller as 500 "An error occurred" |
| StoreProperties.DuplicateModelUnderBothDecorators | vehicle/infrastructure/database/exceptions/orm_exceptions.py:29-31 | only under both decorators does the duplicate become 409 "Vehicle already exists" |
| Service.VehicleService.constructor | vehicle/application/services/vehicle_service.py:9-10 | the service holds only the repository |
| Service.VehicleService.RegisterVehicle | vehicle/application/services/vehicle_service.py:12-16 | invalid data: the validation error, store untouched; valid data: exactly one save of the validated entity, nothing returned, its errors propagated |
| Service.VehicleService.UpdateVehicle | vehicle/application/services/vehicle_service.py:18-22 | the same with one update(vehicle_id, entity) |
| Service.VehicleService.Get | vehicle/application/services/vehicle_service.py:24-27 | the repository's get result, unchanged |
| Service.VehicleService.GetAllAvailable | vehicle/application/services/vehicle_service.py:29-31 | the repository's available listing, unchanged |

## Left out

- Database sessions, commits, refreshes, transactions and concurrent requests. Each adapter method is one atomic update of the in-memory tables.
- `update`: SQLAlchemy's `.update({...})` is a bulk query. The model writes the changed row's `updated_at` itself, as the column's `onupdate` would.
- Floating-point prices. Prices are integers. `price: float` accepts any number above 0, which for integers is `price > 0`.
- `datetime.now()` and the `isoformat()` text. Time is a parameter, and timestamps are kept as text.
- pydantic's lax coercion ("5" as an int, an ISO string as a datetime) is not modelled. Only values of the declared type pass. Any text in an int, float or datetime field gets the parsing error type (`int_parsing`, `float_parsing`, or pydantic's date-time parsing error, whose exact name varies between pydantic versions). This holds even for text pydantic would parse.
- The messages, locations and inputs of pydantic's error records are not modelled. Each error is modelled by its field and type alone.
- The schema (models.py:39-51) declares no `status` column, and it declares `user_id` as an Integer. The model follows the adapter: it writes a status and stores the user id as text.
- `Vehicle.sold` is a one-to-many relationship in models.py:33. The adapter reads it as one record. The model makes "at most one record per vehicle" part of the invariant, and `initialize_sale` requires that the vehicle has none. The code does not enforce this (`StoreProperties.InitializeTwiceBreaksOneRecord`).
- The adapter methods that receive an ORM row (initialize_sale, confirm_sale, revert_sale) take the vehicle's id instead. initialize_sale and confirm_sale require that id to be stored, because the caller passes a row it loaded.
- create_brand requires a valid brand name, because its callers only pass a validated entity's brand name.
- StoreProperties.SaleRoundTrip: key allocation is modelled as never reusing an id: each counter only grows. Whether a deleted row's key comes back depends on the database engine. The default engine is SQLite (setup.py:23), and models.py:44 declares no AUTOINCREMENT, so SQLite may hand out the highest order_id again after revert_sale deletes that row.
- Ties in the price order are left open, because the database's order is unspecified.
- The abstract port vehicle/application/ports/vehicle_repository.py is not part of this model. The adapter's `update(vehicle_id, vehicle)` shape is used.
- The controllers under vehicle/adapters/controllers/ are not part of this model:
  - API-Gateway and SQS event parsing
  - tokens
  - database setup
  - idempotency keys
  - the queue
- The service-level sale guards ("already sold", "not initialized") are not modelled. vehicle_service.py does not contain them.
- Logging is not modelled:
  - the log lines of `event_exception_handlers`, of which only the outcome (None) is modelled;
  - the `print` in `http_exception_handler`'s last clause (exception_handler.py:147).
- ExceptionHandler.KeyErrorStr: models `repr` of a string key only. It covers the quote choice and the escapes of backslash, the quote, newline, carriage return and tab. Other non-printable characters (written by repr as `\x`, `\u` or `\U` escapes) are kept as they are, and non-string keys are not modelled.
- The JSON encoding of response bodies is not modelled. A body is an ordered list of keys and values.
- SoldEntity.NonIntegerIdsRejected: the test at tests/vehicle/test_vehicle_sold.py:29 first assigns -1 to `order_id` on an existing record. Assignment is not validated, so that line raises nothing. The model covers the constructor call that follows it.
