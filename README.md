# Coffee-shop drink API: a Dafny model

This project models the backend of a small coffee-shop menu service. The service is a Flask
API over one table of drinks. Reading the menu is public. Creating, changing and deleting
drinks, and reading the detailed menu, need a bearer token that carries the right permission.

Four modules make up the model:

- `PyValues` (`pyvalues.dfy`) holds decoded JSON values. It also gives the Python meaning of
  `x in container`, `container[key]` and `for x in container` on those values. A value these
  operations reject (TypeError, KeyError) gives `None`.
- `PyStrings` (`pystrings.dfy`) models `str.split()` with no argument, including its full set of
  whitespace characters. It also models `str.lower()` for ASCII letters.
- `Auth` (`auth.dfy`) models the authorisation pipeline of `backend/src/auth/auth.py`, in four
  parts:
  - the header parser;
  - the key search in the key set, which uses the JSON Web Key Set format of RFC 7517;
  - the classification of decode outcomes and the permission check;
  - the `requires_auth` composition.

  Every step ends in one of three ways: `Ok(value)`, `Fail(AuthError)`, or `Crash(name)`.
  `Crash` stands for a Python exception that is not an AuthError. One example is the IndexError
  that `token.split()[0]` raises on a blank header.
- `Api` (`api.dfy`) models the handlers of `backend/src/api.py`:
  - the five routes, as methods of the `DrinkStore` class, which holds the table as a
    `map<int, Drink>` and the next id the database will assign;
  - the inline recipe check;
  - the request-body validation;
  - the error handlers.

  `Valid()` holds two invariants of the table. Every id is below the next id to be assigned, and
  titles are unique. Every write method preserves both.

The recipe check is modelled as the code runs it. In `all(component in drink_recipe for
component in mandatory_components)` the generator rebinds `component`. Each of `color`, `name` and
`parts` is therefore looked up in the recipe value itself: as a key of a dict, an element of a
list, or a substring of a string. The loop repeats that one test once per element of the recipe.
So an empty recipe passes, and a dict that has the three keys passes. That matches the comment
at api.py:110-111, which asks for a recipe dictionary made of the keys `color`, `name` and
`parts`. The loop `for component in drink_recipe` at api.py:113 walks the recipe element by
element, as if the recipe were a list of ingredients each to be checked. The test inside the loop
never looks at the element, though. So a non-empty list of ingredient dicts,
`[{"color": …, "name": …, "parts": …}, …]`, is rejected with 422. The model follows the code
(`IngredientListRejected`, `IngredientDictPasses`).

The `kid` comparison of the key search uses Python's `==` on decoded JSON (`PyEq`). Under it,
`true` equals `1` and `false` equals `0`, also inside lists and dicts.

## Model

| member | source | states |
|---|---|---|
| `PyStrings.Split` | backend/src/auth/auth.py:47 | `split()` gives non-empty words without whitespace. It gives no words exactly when the header is all whitespace |
| `PyValues.Contains` | backend/src/api.py:114-115 | On a string, `in` holds exactly when the needle sits at some position, which is proved against the left-to-right scan `Occurs`. On a dict it tests the keys, and on a list the elements. Any other value raises |
| `PyValues.OccursSomewhere` | backend/src/api.py:114-115 | The substring scan finds the needle iff there is a position where the needle appears |
| `PyValues.IterationLength` | backend/src/api.py:113 | `for` takes one step per key of a dict, per element of a list, or per character of a string. Any other value raises. With zero steps, `in` fails for every needle except `""` in the empty string |
| `PyValues.PyEqIncludesEquality` | backend/src/auth/auth.py:140 | Python's `==` is reflexive on decoded JSON: equal values compare equal |
| `PyValues.TrueEqualsOne` | backend/src/auth/auth.py:140 | `true == 1` under Python's `==`, although the two decoded values differ |
| `Auth.GetTokenAuthHeader` | backend/src/auth/auth.py:37-66 | No header gives `missing_auth_header`. The result is IndexError exactly for a blank header, and no other exception is raised. A first word that is not `bearer` gives `invalid_auth_header` ("must start with bearer"), even when the word count is also wrong. A `bearer` scheme with a word count other than two gives `invalid_auth_header` ("must contain bearer token"). Success exactly for two words starting with a casing of `bearer`, and then the second word is returned. Every failure is 401 |
| `Auth.BearerRoundTrip` | backend/src/auth/auth.py:47-66 | Take any casing of `Bearer` and any whitespace-free token, with any whitespace around or between them. Parsing returns exactly that token |
| `Auth.CheckPermissions` | backend/src/auth/auth.py:83-100 | A missing `permissions` claim gives `invalid_token`, checked first. `invalid_token` is given exactly when the claim is missing. Success iff the permission is in the claim. An absent permission gives `forbidden` with 401. A claim that is not a dict, list or string raises TypeError, and this is exactly when TypeError is raised |
| `Auth.PermissionListDecides` | backend/src/auth/auth.py:92-100 | For a list-of-strings claim: `True` iff the permission is listed, and `forbidden` otherwise |
| `Auth.KeySearchFindsFirstMatch` | backend/src/auth/auth.py:137-148 | The selected key is the projection to `kty/kid/use/n/e` of the first key whose `kid` is equal under Python's `==`. Nothing is found iff every key has a different `kid` |
| `Auth.BoolKidMatchesNumericKid` | backend/src/auth/auth.py:138-148 | A header `kid` of `true` selects a key whose `kid` is `1` |
| `Auth.Classify` | backend/src/auth/auth.py:150-177 | A decoded payload is returned unchanged. An expired signature gives `token_expired`, a claims error `invalid_claims`, and anything else `invalid_header`, all 401 |
| `Auth.VerifyDecode` | backend/src/auth/auth.py:120-181 | An unreadable header raises JWTError. A header without `kid` gives "Authorization malformed." before any key is read. When every key has a different `kid`, the result is "Unable to find the appropriate key.". When a key matches, the result is the classified decode with the first matching key, projected. KeyError is raised exactly when some key lacks a field the loop reads. Every AuthError is 401. The key cases are stated with the independent predicates `PassedOver` and `FirstMatch` |
| `Auth.VerifyDecodeUsesFirstMatchingKey` | backend/src/auth/auth.py:129-159 | A successful decode needs a `kid` in the token header. The decoder ran with the first matching key, projected, and with the fixed algorithm, audience and issuer |
| `Auth.VerifyDecodeJwt` | backend/src/auth/auth.py:120-181 | The loop that sets `rsa_key` and breaks on the first match computes exactly `VerifyDecode`: no `kid` gives "Authorization malformed.", and no match gives "Unable to find the appropriate key." |
| `Auth.AuthPipeline` | backend/src/auth/auth.py:198-205 | Every refusal of the composed guard is 401, `forbidden` included |
| `Auth.HandlerRunsOnlyWhenAuthorized` | backend/src/auth/auth.py:201-205 | The handler gets payload `p` iff extraction gives a token, verification gives `p`, and the permission check passes |
| `Auth.FirstFailureWins` | backend/src/auth/auth.py:201-205 | The first failing step decides the outcome, in the order extract, verify, check |
| `Auth.MissingPermissionsClaimRejected` | backend/src/auth/auth.py:84-90 | A valid token without a `permissions` claim is refused with `invalid_token` for any required permission |
| `Auth.ExpiredTokenRejected` | backend/src/auth/auth.py:161-165 | An expired token is refused with `token_expired` before any permission check |
| `Auth.RequiresAuth` | backend/src/auth/auth.py:198-208 | The wrapper runs the three steps in order and yields exactly `AuthPipeline` |
| `Api.CheckRecipe` | backend/src/api.py:112-118 | The per-element loop decides exactly the closed form. A value that is not iterable raises. Otherwise the recipe is rejected iff it is non-empty and lacks one of the three names in itself |
| `Api.RecipeRejectedExactly` | backend/src/api.py:113-118 | The recipe is rejected iff it is iterable and non-empty, and some mandatory name is not a member of the recipe itself |
| `Api.EmptyRecipePasses` | backend/src/api.py:113-118 | An empty list, dict or string always passes |
| `Api.IngredientListRejected` | backend/src/api.py:110-118 | A non-empty list of ingredient dicts is rejected |
| `Api.IngredientDictPasses` | backend/src/api.py:113-118 | A single dict with `color`, `name` and `parts` passes |
| `Api.ValidatePost` | backend/src/api.py:101-118 | The POST body is accepted iff it is a dict with `title` and `recipe` whose recipe passes the check, and then both values are taken from it. The body gives 422 iff a key is missing or the check rejects the recipe. It gives TypeError iff one of three things holds: the body is not a container; the body is a list or string holding both names; or the recipe cannot be iterated |
| `Api.ValidatePatch` | backend/src/api.py:162-183 | The PATCH body is accepted iff it is a dict with `title` or `recipe`, and any recipe it has passes the check. Exactly the supplied fields are taken. The body gives 422 iff neither key is present or the check rejects a supplied recipe. It gives TypeError iff one of three things holds: the body is not a container; the body is a list or string holding either name; or a supplied recipe cannot be iterated |
| `Api.IdsBelow` | backend/src/api.py:37 | The table is read in strictly ascending id order, and contains exactly the stored ids below the next id |
| `Api.ListingOnePerDrink` | backend/src/api.py:37-40 | The listing has one projection per stored drink, each of the stored row, in ascending id order |
| `Api.PostedDrinkListedLast` | backend/src/api.py:124-126 | After an insert, the listing is the old listing followed by the new drink |
| `Api.DrinkStore.constructor` | backend/src/api.py:19 | The table starts empty, with next id 1, and `Valid()` holds (see "## Left out" for the assumption) |
| `Api.DrinkStore.Insert` | backend/src/api.py:124-129 | The insert fails iff the database fails or the title is taken, and then nothing changes. Otherwise the new drink gets a fresh id and nothing else changes |
| `Api.DrinkStore.Update` | backend/src/api.py:188-193 | The update fails iff the database fails or another row has the title. Otherwise only row `id` changes |
| `Api.DrinkStore.Delete` | backend/src/api.py:225-229 | Unless the database fails, exactly row `id` is removed |
| `Api.DrinkStore.GetDrinks` | backend/src/api.py:33-49 | The result is a short form per stored drink, or 500 with no partial result when the query fails |
| `Api.DrinkStore.GetDrinksDetail` | backend/src/api.py:63-81 | Auth comes first. Then the result is a long form per stored drink, or 500 |
| `Api.DrinkStore.PostDrink` | backend/src/api.py:96-134 | Auth comes first, then body validation, then the insert. Every failure leaves the table unchanged. Success adds exactly one drink with the given title and recipe, and answers with that drink as a one-element list |
| `Api.DrinkStore.PatchDrink` | backend/src/api.py:151-198 | Auth comes first. An unknown id gives 404 before the body is read. A bad body or failed update changes nothing. Otherwise only the supplied fields of that drink change |
| `Api.DrinkStore.DeleteDrink` | backend/src/api.py:214-234 | Auth comes first. An unknown id gives 404, and a database failure gives 422, both with the table unchanged. Otherwise exactly that id is removed and returned |
| `Api.Respond` | backend/src/api.py:244-298 | Statuses 404, 422 and 500 give `{success: false, error: s, message}` with status `s` and the source's messages. An AuthError gives its own body and status |
| `Api.RefusedRequestsAnswer401` | backend/src/api.py:294-298 | Every refusal by the auth guard reaches the client as 401 with the `{code, description}` body |

## Left out

- Key set fetch: the JSON Web Key Set download (`urlopen` at auth.py:124-125) is network I/O. Each request carries the parsed key list instead. Three malformed key sets are not modelled. Each of them raises at auth.py:138-140, which gives 500: a missing `keys` member, a non-empty `keys` member that is not a list, and a non-dict entry that the loop reaches before the first match. An empty `{}` or `""` as `keys` runs the loop zero times, and so behaves like the modelled empty list ("Unable to find the appropriate key."). A non-dict entry after the first match is never read, because of the `break` at auth.py:148.
- JOSE library: `jwt.get_unverified_header` and `jwt.decode` are an oracle. The oracle is a pair of total functions in `Auth.Jose`. The model leaves out RS256 signature checking (section 3.3 of RFC 7518). It also leaves out the validation of the `exp`, `aud` and `iss` claims (sections 4.1.4, 4.1.3 and 4.1.1 of RFC 7519).
- Database: the SQLAlchemy session and engine are abstract. Each write handler takes a `dbFails` flag, and each read handler a `queryFails` flag.
- Unique titles: `database/models.py` is not part of this model. The model assumes it declares `title` unique, and enforces that in `Valid`, `Insert` and `Update`. SQL lets several NULL titles coexist. The model instead treats two `Null` titles as a clash.
- DrinkStore.constructor: `db_drop_and_create_all()` is in `database/models.py`, which is not part of this model. The table is assumed to start empty. Versions of that function that insert a demo drink are not modelled.
- Lookup failures: `Drink.query.get(id)` at api.py:157 and api.py:220 can raise a database error, and Flask then answers 500. The model takes the lookup to succeed. Only the writes (`dbFails`) and the listing query (`queryFails`) can fail.
- Id assignment: new ids come from a counter that only grows. An engine that reuses the highest deleted id is not modelled.
- Listing order: the order `Drink.query.all()` returns rows in is taken to be ascending id.
- PATCH in-memory state: the drink object has its title set before a failing recipe check or update. That leaves a dirty in-memory object, which is not modelled. Only the stored rows are.
- Projections and serialisation: `Drink.short()`, `Drink.long()` (in `database/models.py`) and `json.dumps` are kept symbolic (`Short`, `Long`, `Dumps`). Because of this the model does not show that the short form omits ingredient names.
- JSON numbers: only integers are modelled, and floating point is left out.
- Lowercasing: `str.lower()` is modelled only for ASCII letters. No other character lowercases to a letter of `bearer`, so the scheme test is not affected.
- Flask plumbing: routing, `request.json`, `jsonify`, CORS and the decorators are left out. The request body is given as an already decoded JSON value.
- Non-auth exceptions: a handler that raises one is answered through the registered 500 handler (`Crashed` maps to `CatchAll`). This is Flask's own behaviour, not code of the service.
- Frontend: `frontend/src/environments/environment.ts` holds only configuration constants, and is not part of this model.
- Concurrency: simultaneous requests are not modelled. Each handler runs on its own against the table.
