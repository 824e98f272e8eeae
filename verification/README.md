# Intercooler middleware, modelled in Dafny

This project models the request/response middleware of the Django intercooler.js
helpers (`intercooler_helpers/middleware.py`).

- **Request annotation.** `intercooler_data` takes the parameter bag that the
  request's HTTP method selects: the GET bag for `GET`, `HEAD` and `OPTIONS`,
  the POST bag otherwise. It pops each of the nine `ic-*` parameters out of
  that bag into a fresh `IntercoolerQueryDict` view, records `_method` without
  removing it, records `changed_method`, and caches the view on the request.
  The view's accessor properties (`element`, `id`, `request`, `target_id`,
  `trigger`, `prompt_value`) read it with Django's `get` semantics.
- **Intercooler predicates.** `maybe_intercooler` holds when the
  `HTTP_X_IC_REQUEST` header is `"true"`. `is_intercooler` also needs the AJAX
  flag.
- **Redirect translation.** `IntercoolerRedirector` turns a 3xx response that
  has a `Location` header into a fresh 200 response, but only for a confirmed
  intercooler request. The fresh response carries every other entry of the
  original's header map, and `X-IC-Redirect` holds the old target.

Files:

- `wrappers.dfy`: `Option` and `Result`.
- `query_dict.dfy`: the view's values. It models Django's multi-valued `get`
  and `update`, the accessors, and `int()` on digit strings.
- `intercooler_data.dfy`: the `Request` class and the extraction loop with its
  cache. It also holds the two predicates and the lemmas about the extraction.
- `redirector.dfy`: the `Response` class, `IntercoolerRedirector.__call__` with
  its header-copy loop, and its specification.

Modelling decisions:

- The bags are `map<string, seq<string>>`. The view is a datatype, a
  multi-valued map over `Val = Str | EmptyMarker | Null` plus the
  `changed_method` flag.
- The source stores `[]` for an `ic-*` key whose list is empty (its
  `IndexError` branch), and `None` for an absent `_method`.
- Django's `MultiValueDict.get` is not part of this repository. It answers the
  default when the key is missing or when the last stored value is `[]`. The
  model follows it, so an empty `ic-id` list reads as `0` and an empty name as
  `None`.
- `update({k: v})` appends `v` to the list under `k`.
- `QueryDict.pop` returns the key's whole list (middleware.py:108-113). The
  whole key leaves the bag, and the view keeps only the list's last element.
- The `get_response` callable is a parameter: `Redirect` receives the response
  that the downstream handler returned. The framework's `is_ajax()` answer and
  the `META` dictionary are fields of `Request`.

## Model

| member | source | states |
|---|---|---|
| `IntercoolerData.Request.IntercoolerData` | intercooler_helpers/middleware.py:86-130 | With a cached view: returns that view, and neither bag changes. Without one: returns the extraction of the selected bag, leaves that bag stripped of every `ic-*` key, and caches the view. In both cases the unselected bag is unchanged and afterwards the cache holds the returned view. |
| `IntercoolerData.Request.Extract` | intercooler_helpers/middleware.py:99-127 | The scan over the nine keys. The view equals `ExtractedView` of the bag as it was before, with `changed_method` defaulting to false. The selected bag ends equal to `StrippedBag` of its old value, and the other bag is untouched. |
| `IntercoolerData.Request.PopParam` | intercooler_helpers/middleware.py:100-113 | `pop` on the bag the method selects (GET for GET/HEAD/OPTIONS, POST otherwise) returns the key's whole list and removes only that key. The other bag is not modified. |
| `IntercoolerData.CalledTwice` | intercooler_helpers/middleware.py:86-130 | Two calls of `intercooler_data` on one request return the identical view, and the view stays cached. |
| `IntercoolerData.StrippedBagKeepsOthers` | intercooler_helpers/middleware.py:105-121 | After extraction the bag's keys are exactly the original keys minus the nine `ic-*` keys. No `ic-*` key remains, no key is added, and every other key, `_method` included, keeps exactly its original list. |
| `IntercoolerData.Request.Params` | intercooler_helpers/middleware.py:100-103 | `GET`, `HEAD` and `OPTIONS` select the GET bag. Every other method selects the POST bag. |
| `IntercoolerData.Removed` | intercooler_helpers/middleware.py:112-115 | A popped list contributes its last element, or the empty marker `[]` when the list is empty (the `IndexError` branch). It never contributes `None`. |
| `IntercoolerData.MethodValue` | intercooler_helpers/middleware.py:121 | `get("_method")` gives the last `_method` value when the key has a non-empty list, and `None` otherwise. It never gives `[]`. |
| `IntercoolerData.Request.MaybeIntercooler` | intercooler_helpers/middleware.py:133-134 | Holds iff the `HTTP_X_IC_REQUEST` header is present and equals `"true"`. A missing header reads as false. |
| `IntercoolerData.Request.IsIntercooler` | intercooler_helpers/middleware.py:137-138 | Without the AJAX flag the request is not an intercooler request. A confirmed intercooler request carries the header equal to `"true"`. |
| `QueryDicts.Element` | intercooler_helpers/middleware.py:48-50 | The element's name and id are each `None` when their key is absent. Either one present means its key holds a non-empty list. |
| `QueryDicts.Id` | intercooler_helpers/middleware.py:52-55 | With no `ic-id` the counter is 0. A successful read is never negative. |
| `QueryDicts.RequestFlag` | intercooler_helpers/middleware.py:57-59 | `request` can hold only when `ic-request` holds a non-empty list. |
| `QueryDicts.TargetId` | intercooler_helpers/middleware.py:61-63 | `None` when `ic-target-id` is absent. A value means the key holds a non-empty list. |
| `QueryDicts.Trigger` | intercooler_helpers/middleware.py:65-67 | The trigger's name and id are each `None` when their key is absent. Either one present means its key holds a non-empty list. |
| `QueryDicts.PromptValue` | intercooler_helpers/middleware.py:69-71 | `None` when `ic-prompt-value` is absent. A value means the key holds a non-empty list. |
| `IntercoolerData.ExtractedIcKeys` | intercooler_helpers/middleware.py:106-117 | An `ic-*` key is in the view iff it was in the bag. If it was, the view maps it to one value: the last element of the original list, or the empty marker when that list was empty. |
| `IntercoolerData.ExtractedMethodOverride` | intercooler_helpers/middleware.py:119-127 | The view always holds `_method`: the bag's last `_method` value, or `None` when the key is absent or its list is empty. It records the given `changed_method` flag and holds no key besides `_method` and the `ic-*` keys. |
| `IntercoolerData.AccessorsSeeOriginalBag` | intercooler_helpers/middleware.py:48-71 | On an extracted view, each accessor gives what `get` on the original bag would have given. `element` and `trigger` pair their name and id, `target_id` and `prompt_value` pass through, `request` means a non-empty `ic-request`, and `id` is `int` of `ic-id` defaulting to `"0"`. |
| `IntercoolerData.DefaultsWithoutIcKeys` | intercooler_helpers/middleware.py:48-71 | A bag without `ic-*` parameters gives these defaults: element and trigger `(None, None)`, `id` 0, `request` false, `target_id` and `prompt_value` `None`. |
| `IntercoolerData.ExtractedIdIsCounter` | intercooler_helpers/middleware.py:52-55 | `ic-id=n` as the last value in the bag gives `id == n` on the extracted view. |
| `IntercoolerData.SecondExtractionFindsNothing` | intercooler_helpers/middleware.py:105-123 | Stripping is idempotent. Extracting from a stripped bag finds no `ic-*` key, so that view holds only `_method`, with the same value as before. |
| `IntercoolerData.IntercoolerNeedsBothSignals` | intercooler_helpers/middleware.py:133-138 | `is_intercooler` holds iff the AJAX flag is set and the `HTTP_X_IC_REQUEST` header is present and equals `"true"`. |
| `QueryDicts.IdDefaultsToZero` | intercooler_helpers/middleware.py:52-55 | With no `ic-id` entry, `id` is 0. |
| `QueryDicts.IdReadsCounter` | intercooler_helpers/middleware.py:52-55 | An `ic-id` whose last value is the decimal rendering of `n` reads as `n`. |
| `QueryDicts.IdRejectsNonNumeric` | intercooler_helpers/middleware.py:52-55 | An `ic-id` that is empty or has a non-digit character makes `id` fail instead of defaulting. |
| `QueryDicts.ParseShowRoundTrip` | intercooler_helpers/middleware.py:55 | `int()` applied to the decimal rendering of a natural number returns that number. |
| `QueryDicts.ParseRejectsNonDigit` | intercooler_helpers/middleware.py:55 | `int()` fails on a string with a non-digit character. |
| `QueryDicts.RequestFlagIff` | intercooler_helpers/middleware.py:57-59 | `request` holds iff the last `ic-request` value is a non-empty string. |
| `Redirector.RedirectHeaders` | intercooler_helpers/middleware.py:164-169 | The rewritten headers contain no `Location`. `X-IC-Redirect` equals the old `Location`. Every other original header keeps its value, and no other header appears. |
| `Redirector.Redirect` | intercooler_helpers/middleware.py:157-172 | A confirmed intercooler request with a 3xx status and a `Location` header gets a fresh 200 response with `RedirectHeaders` of the original headers, and the original loses `Location`. In every other case the original response is returned with its headers and status unchanged. |
| `Redirector.WheeeRedirect` | intercooler_helpers/middleware.py:162-170 | A 302 to `/wheee/` is rewritten into headers that carry `X-IC-Redirect: /wheee/` and the other original headers unchanged. This is the shape that intercooler_helpers/tests/test_decorators.py checks. |

## Left out

- The `url` / `current_url` accessor (middleware.py:33-46) is not modelled. It calls `urlparse` and Django's URL resolver, which are library code outside this repository.
- Runtime attachment of `maybe_intercooler`, `is_intercooler` and the lazy `intercooler_data` (middleware.py:147-153) is left out. These become fields and methods of the `Request` class, and the cache is an explicit `Option` field.
- Object identity of the cached view is modelled as value equality. The view is a datatype, not a Python object.
- The `_mutable` toggle (middleware.py:79-83) is left out. Bags are plain mutable maps.
- `__repr__` (middleware.py:73-76) is left out. It only formats a string.
- `QueryDicts.Id`: `int()` is modelled only for ASCII digit strings. Python also accepts surrounding whitespace, a sign, underscores and other Unicode digits; the model reports a failure for all of them.
- A fresh `HttpResponse()` in Django starts with a default `Content-Type` header. The model starts it with no headers. Every copied original header, a `Content-Type` included, still overrides that default.
- The rewrite copies only the header map (`response.items()`, middleware.py:167-168). Cookies set on the original response live in `response.cookies`, which `items()` does not list, so the fresh response drops them. The model does not represent cookies.
- Header names are case-sensitive here, but Django compares them case-insensitively. Header order is not modelled.
- The response body is not modelled. The body of a rewritten redirect is dropped in any case.
- The `is_ajax()` test comes from the framework and is a boolean field of the request.
- The decorators exercised by intercooler_helpers/tests/test_decorators.py (`ic_redirect`, `ic_push_url`, fragment selection) live in a `decorators` module. That module is not part of this model.
