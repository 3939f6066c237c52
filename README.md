# Klein service provider and route factory, modelled in Dafny

This project models two pieces of state kept by the Klein PHP router:

- the **ServiceProvider** of a request: the flash-message table it keeps in the
  PHP session (`flash` appends a markdown-rendered message to the list of its
  type, `flashes` returns and clears all types or one type), the view layout
  (`layout` as a getter/setter), the request and response it is bound to
  (`bind`), and the save/change/restore of the current view and layout around
  `render` and `partial`;
- the **AbstractRouteFactory**: the namespace (path prefix) under which built
  routes are collected, set by the constructor and `setNamespace` and extended
  by `appendNamespace`.

Files:

- `wrappers.dfy` — `Option`, standing for PHP null or an unset entry.
- `flash_store.dfy` — module `FlashStore`: the session entry `'__flashes'` as a
  value (`None` while unset, otherwise a map from flash type to its messages),
  `Flash` and `Take` as functions on it, and lemmas about runs of flashes and
  reads.
- `service_provider.dfy` — module `ServiceProviders`: classes `Session` (the
  process-wide PHP session, shared by providers), `Request`, `Response` and
  `ServiceProvider`, whose methods update the fields in place and are specified
  against the functions of `FlashStore`. Including a view or layout file is
  recorded in the field `required` as an `Inclusion` (the file with the view and
  layout it sees), which is how the model observes what `render` and `partial`
  do. `markdown` is a constant field holding an arbitrary function, since its
  body is not modelled.
- `route_factory.dfy` — module `RouteFactories`: class `AbstractRouteFactory`
  with its one nullable `namespace` field, and the namespace composition
  functions and lemmas.

## Model

| member | source | states |
|---|---|---|
| FlashStore.Flash | Klein/ServiceProvider.php:167-172 | the table is created (or the type's entry added) when missing and becomes set; the type's list is its old list with the new message last; every other type's list and presence is unchanged |
| FlashStore.Take | Klein/ServiceProvider.php:182-199 | with no type: returns every type's messages and unsets the table; with a type: returns exactly that type's list and removes only that key, other types and the table itself remain; an unset table gives an empty answer, and a missing type leaves the store unchanged |
| FlashStore.FlashAllMessages | Klein/ServiceProvider.php:172 | after any run of flashes a type's list is its earlier list followed by exactly the messages flashed to that type, in flash order |
| FlashStore.FlashAllTypes | Klein/ServiceProvider.php:167-171 | after a non-empty run of flashes the table is set and holds the earlier types plus the flashed types, nothing else |
| FlashStore.FlashThenTakeType | Klein/ServiceProvider.php:160-199 | reading a type right after flashing it returns its earlier messages with the new one last, and leaves all other types as they were |
| FlashStore.TakeAllTwice | Klein/ServiceProvider.php:185-190 | after flashes() with no type, a second flashes() returns an empty table and the store stays unset |
| FlashStore.TakeTypeTwice | Klein/ServiceProvider.php:191-196 | after flashes(type), a second flashes(type) returns an empty list and changes nothing |
| FlashStore.FlashOtherTypesCommute | Klein/ServiceProvider.php:167-172 | flashes of two different types give tables that are equal as key/value pairs (PHP `==`) in either order |
| ServiceProviders.ServiceProvider.constructor | Klein/ServiceProvider.php:93-100 | the new provider is bound to the given request and response and has no layout and no view |
| ServiceProviders.ServiceProvider.Bind | Klein/ServiceProvider.php:110-117 | a null argument keeps the current request or response, a non-null one replaces it; returns the provider |
| ServiceProviders.ServiceProvider.Flash | Klein/ServiceProvider.php:160-173 | the session table becomes FlashStore.Flash of its old value with the markdown of the message and its parameters; an array in place of the type becomes the parameters and the type is "info" |
| ServiceProviders.ServiceProvider.Flashes | Klein/ServiceProvider.php:182-199 | the answer and the new session table are exactly FlashStore.Take of the old table |
| ServiceProviders.ServiceProvider.Layout | Klein/ServiceProvider.php:301-310 | a non-null argument sets the layout and returns the provider; null returns the current layout and leaves it unchanged |
| ServiceProviders.ServiceProvider.YieldView | Klein/ServiceProvider.php:318-321 | the current view file is required, seeing the current view and layout; the view must be set |
| ServiceProviders.ServiceProvider.Render | Klein/ServiceProvider.php:331-353 | the view file is required when no layout is set, the layout file otherwise, while the view is the rendered one; afterwards the view is back to its value before the call and the layout is untouched; a response must be bound |
| ServiceProviders.ServiceProvider.Partial | Klein/ServiceProvider.php:363-369 | the view file itself is required, seeing no layout; afterwards both layout and view are back to their values before the call; a response must be bound |
| RouteFactories.Appended | src/Klein/AbstractRouteFactory.php:77-79 | the appended namespace keeps the old namespace (null counting as "") as its prefix and the argument as the rest |
| RouteFactories.AppendTwice | src/Klein/AbstractRouteFactory.php:79 | two successive appends of a and b give the same namespace as one append of a + b |
| RouteFactories.AppendedAllJoins | src/Klein/AbstractRouteFactory.php:77-81 | any run of appends gives the starting namespace followed by every part in order; from null, the parts alone |
| RouteFactories.AbstractRouteFactory.constructor | src/Klein/AbstractRouteFactory.php:40-43 | the namespace is the constructor argument, null by default |
| RouteFactories.AbstractRouteFactory.GetNamespace | src/Klein/AbstractRouteFactory.php:51-54 | returns the current namespace and changes nothing |
| RouteFactories.AbstractRouteFactory.SetNamespace | src/Klein/AbstractRouteFactory.php:63-68 | the namespace becomes the string form of the argument (null becomes ""), the old value is discarded; returns the factory |
| RouteFactories.AbstractRouteFactory.AppendNamespace | src/Klein/AbstractRouteFactory.php:77-82 | the namespace becomes the old namespace followed by the argument (from null, the argument alone); returns the factory |

## Left out

- `startSession` (Klein/ServiceProvider.php:138-149): starting the PHP session is process I/O; the session is taken to exist, and `flash`/`flashes` ignore its result as the source does.
- The bodies of `markdown` and `escape` (Klein/ServiceProvider.php:215-255): they call PCRE, `htmlentities` and `vsprintf`; `markdown` is an arbitrary function held by the provider, and `escape` is not modelled.
- The contents of view and layout files: a `require` is recorded as an `Inclusion` and is taken not to change the provider's view or layout (so a nested render inside a view is not modelled).
- The `$data` argument of `render` and `partial` and its merge into the shared data collection (Klein/ServiceProvider.php:335-337): the DataCollection class is not part of this model.
- Response chunking at the end of `render` (Klein/ServiceProvider.php:347-349): sending a chunk is output streaming; only its failure on a missing response is kept, as the requires on `Render` and `Partial`.
- ServiceProviders.ServiceProvider.Render: requires a bound response, and so does `Partial`; `YieldView` requires a set view. These exclude two fatal errors of the source rather than model them: with a null response, `render` reads `chunked` of null and then calls `chunk()` on null (Klein/ServiceProvider.php:347-348), so the view is never restored (352) and, in `partial`, neither is the layout (368); and `yieldView` with a null view requires null (320). The model says nothing about the provider's state after such a failure.
- FlashStore.FlashOtherTypesCommute, FlashStore.Take and FlashStore.Flash: the table keeps each type's messages but not the order of the types. In PHP the array lists the types in the order they were first flashed (Klein/ServiceProvider.php:168, 170), and `flashes()` with no type returns them in that order (189); the model's tables are equal when PHP's `==` holds, not `===`, and a `foreach` over the returned table has no order here.
- Default arguments: Dafny methods take none. A call `flash($msg)` is `Flash(msg, Named(DefaultType), None)`, `flashes()` is `Flashes(None)`, `layout()` is `Layout(None)`, and `new AbstractRouteFactory()` is `new AbstractRouteFactory(None)`.
- `refresh` and `back` (Klein/ServiceProvider.php:263-289): HTTP redirects through the Request and Response classes, which are not part of this model.
- `sharedData`, `addValidator`, `validate`, `validateParam` and the magic `__isset`, `__get`, `__set`, `__unset`, `__call` (Klein/ServiceProvider.php:125-128, 379-490): they delegate to DataCollection and Validator, which are not part of this model, or use dynamic calls.
- `AbstractRouteFactory::build` (src/Klein/AbstractRouteFactory.php:98): abstract, with no body to model.
- PHP array-key coercion: a flash type that is a decimal integer string (such as "1") becomes an integer key in PHP; here types are plain strings.
- PHP's dynamic argument types: a flash type is either a string or an array of string parameters, and the namespace argument is either null or a string; other values (numbers, objects with `__toString`) are not modelled.
- The shape of the empty answer of `flashes` when the table is unset: PHP returns one untyped empty array; the model returns the empty value of the requested shape (an empty table with no type, an empty list with a type).
