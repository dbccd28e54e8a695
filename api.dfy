/** The drink endpoints of backend/src/api.py over a table of drinks keyed by
    id, the inline recipe check of POST and PATCH, and the error handlers
    that turn aborts and AuthErrors into HTTP responses.

    The database is the `DrinkStore` class; whether a write fails for a
    reason the model does not see (a lost connection, a failed commit) is an
    input flag of each handler. The JSON serialisation of a recipe and the
    `short()`/`long()` projections of a drink are kept symbolic. */
module Api {
  import opened PyValues
  import Auth

  const DetailPermission := "get:drinks-detail"
  const PostPermission := "post:drinks"
  const PatchPermission := "patch:drinks"
  const DeletePermission := "delete:drinks"

  /** The statuses the handlers pass to `abort`. */
  datatype HttpError = NotFound | Unprocessable | InternalServerError

  /** `json.dumps(recipe)`: the stored text, kept as the value it encodes. */
  datatype Serialized = Dumps(value: Json)

  /** A row of the drink table. */
  datatype Drink = Drink(title: Json, recipe: Serialized)

  /** `drink.short()` and `drink.long()`. */
  datatype DrinkView = Short(id: int, drink: Drink) | Long(id: int, drink: Drink)

  /** The JSON bodies the API answers with. */
  datatype Body =
    | DrinksBody(success: bool, drinks: seq<DrinkView>)
    | DeletedBody(success: bool, delete: int)
    | ErrorBody(success: bool, error: int, message: string)
    | AuthErrorBody(info: Auth.ErrorInfo)

  /** How a handler ends: it returns a body, calls `abort`, lets an AuthError
      out of `requires_auth`, or raises another exception. */
  datatype Handled =
    | Done(body: Body)
    | Aborted(status: HttpError)
    | Raised(authError: Auth.AuthError)
    | Crashed(exception: string)

  datatype HttpResponse = HttpResponse(status: int, body: Body)

  /** A failed `requires_auth` seen from the route. */
  function Denied(a: Auth.Outcome<JsonObject>): Handled
    requires !a.Ok?
  {
    if a.Fail? then Raised(a.error) else Crashed(a.exception)
  }

  // ---------------------------------------------------------------------------
  // The recipe check of post_drink and patch_drink

  const Mandatory := ["color", "name", "parts"]

  /** `all(component in drink_recipe for component in mandatory_components)`.
      The generator rebinds `component`, so each mandatory name is looked up in
      the recipe value itself, not in the current element. */
  predicate HasMandatory(recipe: Json) {
    forall c :: c in Mandatory ==> Contains(recipe, c) == Some(true)
  }

  datatype RecipeVerdict = Pass | Reject | NotIterable

  /** The recipe check in closed form: iterating a value that is not a dict,
      list or string raises TypeError; otherwise the same test is repeated once
      per element, so an empty recipe passes and a non-empty one passes exactly
      when it contains all three names itself. */
  function RecipeVerdictOf(recipe: Json): RecipeVerdict {
    match IterationLength(recipe)
    case None => NotIterable
    case Some(n) => if n == 0 || HasMandatory(recipe) then Pass else Reject
  }

  /** The check as the handlers run it: one test per element of the recipe,
      aborting on the first failure. */
  method CheckRecipe(recipe: Json) returns (v: RecipeVerdict)
    ensures v == RecipeVerdictOf(recipe)
  {
    var steps := IterationLength(recipe);
    if steps.None? {
      return NotIterable;
    }
    for step := 0 to steps.value
      invariant step > 0 ==> HasMandatory(recipe)
    {
      if !HasMandatory(recipe) {
        return Reject;
      }
    }
    return Pass;
  }

  /** The check aborts exactly when the recipe is iterable, non-empty and lacks
      one of the three names as a key, element or substring of itself. */
  lemma RecipeRejectedExactly(recipe: Json)
    ensures RecipeVerdictOf(recipe) == Reject <==>
      IterationLength(recipe).Some? && IterationLength(recipe).value > 0
      && exists c :: c in Mandatory && Contains(recipe, c) != Some(true)
  {
  }

  /** An empty list, dict or string passes the check. */
  lemma EmptyRecipePasses(recipe: Json)
    requires recipe == Arr([]) || recipe == Obj(map[]) || recipe == Str("")
    ensures RecipeVerdictOf(recipe) == Pass
  {
  }

  /** A non-empty list of ingredient dicts is
      rejected, since no element of it is the string "color". */
  lemma IngredientListRejected(items: seq<Json>)
    requires items != []
    requires forall i :: 0 <= i < |items| ==> items[i].Obj?
    ensures RecipeVerdictOf(Arr(items)) == Reject
  {
    assert Mandatory[0] == "color";
    assert Str("color") !in items;
    assert Contains(Arr(items), "color") == Some(false);
  }

  /** A single ingredient dict sent as the whole recipe passes. */
  lemma IngredientDictPasses(fields: map<string, Json>)
    requires "color" in fields && "name" in fields && "parts" in fields
    ensures RecipeVerdictOf(Obj(fields)) == Pass
  {
  }

  // ---------------------------------------------------------------------------
  // Request-body validation of post_drink and patch_drink

  datatype PostCheck = PostAccepted(title: Json, recipe: Json) | PostRejected(failure: Handled)

  /** What post_drink makes of the request body before inserting: both keys
      present, both read, recipe checked. */
  function ValidatePost(data: Json): (r: PostCheck)
    ensures r.PostAccepted? <==>
      data.Obj? && "title" in data.fields && "recipe" in data.fields
      && RecipeVerdictOf(data.fields["recipe"]) == Pass
    ensures r.PostAccepted? ==> r.title == data.fields["title"] && r.recipe == data.fields["recipe"]
    // abort(422): a missing key, or a recipe the check rejects
    ensures r == PostRejected(Aborted(Unprocessable)) <==>
      Contains(data, "title") == Some(false) || Contains(data, "recipe") == Some(false)
      || (data.Obj? && "title" in data.fields && "recipe" in data.fields
          && RecipeVerdictOf(data.fields["recipe"]) == Reject)
    // TypeError: `in` on a non-container, `data[...]` on a list or string,
    // or iterating a recipe that is not a container
    ensures r == PostRejected(Crashed("TypeError")) <==>
      Contains(data, "title").None?
      || (!data.Obj? && Contains(data, "title") == Some(true) && Contains(data, "recipe") == Some(true))
      || (data.Obj? && "title" in data.fields && "recipe" in data.fields
          && RecipeVerdictOf(data.fields["recipe"]) == NotIterable)
    ensures r.PostRejected? ==> r.failure in {Aborted(Unprocessable), Crashed("TypeError")}
  {
    match Contains(data, "title")
    case None => PostRejected(Crashed("TypeError"))
    case Some(hasTitle) =>
      if !hasTitle || !Contains(data, "recipe").value then PostRejected(Aborted(Unprocessable))
      else match Subscript(data, "title")
        case None => PostRejected(Crashed("TypeError"))
        case Some(title) =>
          var recipe := Subscript(data, "recipe").value;
          match RecipeVerdictOf(recipe)
          case NotIterable => PostRejected(Crashed("TypeError"))
          case Reject => PostRejected(Aborted(Unprocessable))
          case Pass => PostAccepted(title, recipe)
  }

  datatype PatchCheck = PatchAccepted(title: Option<Json>, recipe: Option<Json>) | PatchRejected(failure: Handled)

  /** What patch_drink makes of the request body: at least one of the keys,
      each supplied field read, a supplied recipe checked. */
  function ValidatePatch(data: Json): (r: PatchCheck)
    ensures r.PatchAccepted? <==>
      data.Obj? && ("title" in data.fields || "recipe" in data.fields)
      && ("recipe" in data.fields ==> RecipeVerdictOf(data.fields["recipe"]) == Pass)
    ensures r.PatchAccepted? ==>
      (r.title.Some? <==> "title" in data.fields) && (r.recipe.Some? <==> "recipe" in data.fields)
    ensures r.PatchAccepted? && r.title.Some? ==> r.title.value == data.fields["title"]
    ensures r.PatchAccepted? && r.recipe.Some? ==> r.recipe.value == data.fields["recipe"]
    // abort(422): neither key, or a supplied recipe the check rejects
    ensures r == PatchRejected(Aborted(Unprocessable)) <==>
      (Contains(data, "title") == Some(false) && Contains(data, "recipe") == Some(false))
      || (data.Obj? && "recipe" in data.fields && RecipeVerdictOf(data.fields["recipe"]) == Reject)
    // TypeError: `in` on a non-container, `data[...]` on a list or string,
    // or iterating a supplied recipe that is not a container
    ensures r == PatchRejected(Crashed("TypeError")) <==>
      Contains(data, "title").None?
      || (!data.Obj? && (Contains(data, "title") == Some(true) || Contains(data, "recipe") == Some(true)))
      || (data.Obj? && "recipe" in data.fields && RecipeVerdictOf(data.fields["recipe"]) == NotIterable)
    ensures r.PatchRejected? ==> r.failure in {Aborted(Unprocessable), Crashed("TypeError")}
  {
    match Contains(data, "title")
    case None => PatchRejected(Crashed("TypeError"))
    case Some(hasTitle) =>
      var hasRecipe := Contains(data, "recipe").value;
      if !hasTitle && !hasRecipe then PatchRejected(Aborted(Unprocessable))
      else if (hasTitle && Subscript(data, "title").None?) || (hasRecipe && Subscript(data, "recipe").None?) then
        PatchRejected(Crashed("TypeError"))
      else
        var title := if hasTitle then Subscript(data, "title") else None;
        var recipe := if hasRecipe then Subscript(data, "recipe") else None;
        if recipe.Some? && RecipeVerdictOf(recipe.value) == NotIterable then PatchRejected(Crashed("TypeError"))
        else if recipe.Some? && RecipeVerdictOf(recipe.value) == Reject then PatchRejected(Aborted(Unprocessable))
        else PatchAccepted(title, recipe)
  }

  /** A drink with the supplied fields of a patch applied. */
  function Patched(d: Drink, title: Option<Json>, recipe: Option<Json>): Drink {
    Drink(if title.Some? then title.value else d.title,
          if recipe.Some? then Dumps(recipe.value) else d.recipe)
  }

  // ---------------------------------------------------------------------------
  // Listing the table

  /** The ids of `m` in [1, n), ascending: the order the table is read in. */
  function IdsBelow(m: map<int, Drink>, n: int): (ids: seq<int>)
    ensures forall i, j :: 0 <= i < j < |ids| ==> ids[i] < ids[j]
    ensures forall k :: k in ids <==> k in m && 1 <= k < n
    decreases n
  {
    if n <= 1 then []
    else
      var below := IdsBelow(m, n - 1);
      assert forall i :: 0 <= i < |below| ==> below[i] in below;
      below + (if n - 1 in m then [n - 1] else [])
  }

  /** A strictly increasing sequence has as many distinct elements as entries. */
  lemma {:induction false} IncreasingCardinality(s: seq<int>)
    requires forall i, j :: 0 <= i < j < |s| ==> s[i] < s[j]
    ensures |set k | k in s| == |s|
  {
    if s != [] {
      var init := s[..|s| - 1];
      IncreasingCardinality(init);
      assert (set k | k in s) == (set k | k in init) + {s[|s| - 1]};
      assert s[|s| - 1] !in init;
    }
  }

  /** When every id is in [1, n), the listing has one entry per drink. */
  lemma ListingCoversStore(m: map<int, Drink>, n: int)
    requires forall k :: k in m ==> 1 <= k < n
    ensures |IdsBelow(m, n)| == |m|
  {
    var ids := IdsBelow(m, n);
    IncreasingCardinality(ids);
    assert (set k | k in ids) == m.Keys;
  }

  lemma {:induction false} IdsBelowAgree(m1: map<int, Drink>, m2: map<int, Drink>, n: int)
    requires forall k :: 1 <= k < n ==> (k in m1 <==> k in m2)
    ensures IdsBelow(m1, n) == IdsBelow(m2, n)
    decreases n
  {
    if n > 1 {
      IdsBelowAgree(m1, m2, n - 1);
    }
  }

  /** A drink inserted above every existing id comes last in the listing. */
  lemma ListingAfterInsert(m: map<int, Drink>, n: int, d: Drink)
    requires 1 <= n
    requires forall k :: k in m ==> 1 <= k < n
    ensures IdsBelow(m[n := d], n + 1) == IdsBelow(m, n) + [n]
  {
    IdsBelowAgree(m[n := d], m, n);
  }

  /** The projections of the drinks with the given ids, in that order. */
  function Views(m: map<int, Drink>, ids: seq<int>, long: bool): (vs: seq<DrinkView>)
    requires forall k :: k in ids ==> k in m
    ensures |vs| == |ids|
    ensures forall i :: 0 <= i < |ids| ==>
      vs[i].id == ids[i] && vs[i].drink == m[ids[i]] && vs[i].Long? == long
  {
    seq(|ids|, i requires 0 <= i < |ids| =>
      var id := ids[i];
      assert id in ids;
      if long then Long(id, m[id]) else Short(id, m[id]))
  }

  /** `vs` holds one projection (of the given form) per drink of `m`, in
      ascending id order. */
  ghost predicate OnePerDrink(m: map<int, Drink>, vs: seq<DrinkView>, long: bool) {
    && |vs| == |m|
    && (forall i :: 0 <= i < |vs| ==> vs[i].Long? == long && vs[i].id in m && vs[i].drink == m[vs[i].id])
    && (forall id :: id in m ==> exists i :: 0 <= i < |vs| && vs[i].id == id)
    && (forall i, j :: 0 <= i < j < |vs| ==> vs[i].id < vs[j].id)
  }

  /** Reading the table in id order yields one projection per stored drink. */
  lemma ListingOnePerDrink(m: map<int, Drink>, n: int, long: bool)
    requires forall k :: k in m ==> 1 <= k < n
    ensures OnePerDrink(m, Views(m, IdsBelow(m, n), long), long)
  {
    var ids := IdsBelow(m, n);
    ListingCoversStore(m, n);
    forall id | id in m ensures exists i :: 0 <= i < |ids| && ids[i] == id {
      assert id in ids;
    }
  }

  /** After a POST, the listing is the old listing followed by the new drink. */
  lemma PostedDrinkListedLast(m: map<int, Drink>, n: int, d: Drink, long: bool)
    requires 1 <= n
    requires forall k :: k in m ==> 1 <= k < n
    ensures Views(m[n := d], IdsBelow(m[n := d], n + 1), long)
            == Views(m, IdsBelow(m, n), long) + [if long then Long(n, d) else Short(n, d)]
  {
    ListingAfterInsert(m, n, d);
    var before := Views(m, IdsBelow(m, n), long);
    var after := Views(m[n := d], IdsBelow(m[n := d], n + 1), long);
    assert |after| == |before| + 1;
    forall i | 0 <= i < |before| ensures after[i] == before[i] {
      assert IdsBelow(m, n)[i] in IdsBelow(m, n);
    }
  }

  // ---------------------------------------------------------------------------
  // The drink table and the handlers

  class DrinkStore {
    var drinks: map<int, Drink>
    /** The id the database gives the next inserted row. */
    var nextId: int

    /** Every id lies below the next one to be given out; titles are unique. */
    ghost predicate Valid()
      reads this
    {
      && 1 <= nextId
      && (forall id :: id in drinks ==> 1 <= id < nextId)
      && (forall a, b :: a in drinks && b in drinks && a != b ==> drinks[a].title != drinks[b].title)
    }

    /** `db_drop_and_create_all()`: an empty table. */
    constructor ()
      ensures Valid() && drinks == map[] && nextId == 1
    {
      drinks := map[];
      nextId := 1;
    }

    predicate TitleInUse(title: Json)
      reads this
    {
      exists id :: id in drinks && drinks[id].title == title
    }

    predicate TitleUsedByOther(title: Json, id: int)
      reads this
    {
      exists other :: other in drinks && other != id && drinks[other].title == title
    }

    /** `[drink.short() for drink in Drink.query.all()]` (or `long()`), the
        table read in ascending id order. */
    function Listed(long: bool): seq<DrinkView>
      reads this
      requires Valid()
    {
      Views(drinks, IdsBelow(drinks, nextId), long)
    }

    /** `drink.insert()`: the row is added under the next id, unless the
        database fails or the title is taken (the unique constraint on title). */
    method Insert(d: Drink, dbFails: bool) returns (id: Option<int>)
      requires Valid()
      modifies this
      ensures Valid()
      ensures id.None? <==> dbFails || old(TitleInUse(d.title))
      ensures id.None? ==> drinks == old(drinks) && nextId == old(nextId)
      ensures id.Some? ==>
        && id.value == old(nextId) && id.value !in old(drinks)
        && drinks == old(drinks)[id.value := d] && nextId == old(nextId) + 1
        && Listed(true) == old(Listed(true)) + [Long(id.value, d)]
    {
      if dbFails || TitleInUse(d.title) {
        return None;
      }
      PostedDrinkListedLast(drinks, nextId, d, true);
      id := Some(nextId);
      drinks := drinks[nextId := d];
      nextId := nextId + 1;
    }

    /** `drink.update()` after the fields were set: the row `id` becomes `d`,
        unless the database fails or another row holds the title. */
    method Update(id: int, d: Drink, dbFails: bool) returns (ok: bool)
      requires Valid() && id in drinks
      modifies this
      ensures Valid()
      ensures nextId == old(nextId)
      ensures !ok <==> dbFails || old(TitleUsedByOther(d.title, id))
      ensures drinks == if ok then old(drinks)[id := d] else old(drinks)
    {
      if dbFails || TitleUsedByOther(d.title, id) {
        return false;
      }
      drinks := drinks[id := d];
      return true;
    }

    /** `drink.delete()`: the row `id` goes, unless the database fails. */
    method Delete(id: int, dbFails: bool) returns (ok: bool)
      requires Valid() && id in drinks
      modifies this
      ensures Valid()
      ensures nextId == old(nextId)
      ensures ok == !dbFails
      ensures drinks == if ok then old(drinks) - {id} else old(drinks)
    {
      if dbFails {
        return false;
      }
      drinks := drinks - {id};
      return true;
    }

    /** GET /drinks: public; the short form of every drink, or 500 when the query fails. */
    method GetDrinks(queryFails: bool) returns (h: Handled)
      requires Valid()
      ensures queryFails ==> h == Aborted(InternalServerError)
      ensures !queryFails ==> h == Done(DrinksBody(true, Listed(false)))
      ensures !queryFails ==> OnePerDrink(drinks, h.body.drinks, false)
    {
      if queryFails {
        return Aborted(InternalServerError);
      }
      ListingOnePerDrink(drinks, nextId, false);
      return Done(DrinksBody(true, Listed(false)));
    }

    /** GET /drinks-detail: behind `get:drinks-detail`; the long form of every drink. */
    method GetDrinksDetail(req: Auth.Request, queryFails: bool) returns (h: Handled)
      requires Valid()
      ensures var a := Auth.AuthPipeline(DetailPermission, req);
        && (!a.Ok? ==> h == Denied(a))
        && (a.Ok? && queryFails ==> h == Aborted(InternalServerError))
        && (a.Ok? && !queryFails ==> h == Done(DrinksBody(true, Listed(true))))
        && (a.Ok? && !queryFails ==> OnePerDrink(drinks, h.body.drinks, true))
    {
      var auth := Auth.RequiresAuth(DetailPermission, req);
      if !auth.Ok? {
        return Denied(auth);
      }
      if queryFails {
        return Aborted(InternalServerError);
      }
      ListingOnePerDrink(drinks, nextId, true);
      return Done(DrinksBody(true, Listed(true)));
    }

    /** POST /drinks: behind `post:drinks`. The insert fails when the database
        fails or the title is already taken (the unique constraint). */
    method PostDrink(req: Auth.Request, data: Json, dbFails: bool) returns (h: Handled)
      requires Valid()
      modifies this
      ensures Valid()
      ensures var a := Auth.AuthPipeline(PostPermission, req);
        !a.Ok? ==> h == Denied(a) && drinks == old(drinks) && nextId == old(nextId)
      ensures Auth.AuthPipeline(PostPermission, req).Ok? && ValidatePost(data).PostRejected? ==>
        h == ValidatePost(data).failure && drinks == old(drinks) && nextId == old(nextId)
      ensures Auth.AuthPipeline(PostPermission, req).Ok? && ValidatePost(data).PostAccepted? ==>
        var d := Drink(ValidatePost(data).title, Dumps(ValidatePost(data).recipe));
        if dbFails || old(TitleInUse(d.title)) then
          h == Aborted(Unprocessable) && drinks == old(drinks) && nextId == old(nextId)
        else
          && drinks == old(drinks)[old(nextId) := d]
          && old(nextId) !in old(drinks)
          && nextId == old(nextId) + 1
          && h == Done(DrinksBody(true, [Long(old(nextId), d)]))
          && Listed(true) == old(Listed(true)) + [Long(old(nextId), d)]
    {
      var auth := Auth.RequiresAuth(PostPermission, req);
      if !auth.Ok? {
        return Denied(auth);
      }
      var hasTitle := Contains(data, "title");
      if hasTitle.None? {
        return Crashed("TypeError");
      }
      if !hasTitle.value || !Contains(data, "recipe").value {
        return Aborted(Unprocessable);
      }
      var title := Subscript(data, "title");
      if title.None? {
        return Crashed("TypeError");
      }
      var recipe := Subscript(data, "recipe").value;
      var verdict := CheckRecipe(recipe);
      if verdict == NotIterable {
        return Crashed("TypeError");
      }
      if verdict == Reject {
        return Aborted(Unprocessable);
      }
      var drink := Drink(title.value, Dumps(recipe));
      var id := Insert(drink, dbFails);
      if id.None? {
        return Aborted(Unprocessable);
      }
      return Done(DrinksBody(true, [Long(id.value, drink)]));
    }

    /** PATCH /drinks/<id>: behind `patch:drinks`. Unknown id first, then the
        body; only the supplied fields change, and a failed check or update
        leaves the table as it was. */
    method PatchDrink(req: Auth.Request, id: int, data: Json, dbFails: bool) returns (h: Handled)
      requires Valid()
      modifies this
      ensures Valid()
      ensures nextId == old(nextId)
      ensures var a := Auth.AuthPipeline(PatchPermission, req);
        !a.Ok? ==> h == Denied(a) && drinks == old(drinks)
      ensures Auth.AuthPipeline(PatchPermission, req).Ok? && id !in old(drinks) ==>
        h == Aborted(NotFound) && drinks == old(drinks)
      ensures Auth.AuthPipeline(PatchPermission, req).Ok? && id in old(drinks) && ValidatePatch(data).PatchRejected? ==>
        h == ValidatePatch(data).failure && drinks == old(drinks)
      ensures Auth.AuthPipeline(PatchPermission, req).Ok? && id in old(drinks) && ValidatePatch(data).PatchAccepted? ==>
        var p := ValidatePatch(data);
        var d := Patched(old(drinks[id]), p.title, p.recipe);
        && (p.title.None? ==> d.title == old(drinks[id].title))
        && (p.recipe.None? ==> d.recipe == old(drinks[id].recipe))
        && if dbFails || old(TitleUsedByOther(d.title, id)) then
             h == Aborted(Unprocessable) && drinks == old(drinks)
           else
             drinks == old(drinks)[id := d] && h == Done(DrinksBody(true, [Long(id, d)]))
    {
      var auth := Auth.RequiresAuth(PatchPermission, req);
      if !auth.Ok? {
        return Denied(auth);
      }
      if id !in drinks {
        return Aborted(NotFound);
      }
      var hasTitle := Contains(data, "title");
      if hasTitle.None? {
        return Crashed("TypeError");
      }
      var hasRecipe := Contains(data, "recipe").value;
      if !hasTitle.value && !hasRecipe {
        return Aborted(Unprocessable);
      }
      var drink := drinks[id];
      if hasTitle.value {
        var title := Subscript(data, "title");
        if title.None? {
          return Crashed("TypeError");
        }
        drink := drink.(title := title.value);
      }
      if hasRecipe {
        var recipe := Subscript(data, "recipe");
        if recipe.None? {
          return Crashed("TypeError");
        }
        var verdict := CheckRecipe(recipe.value);
        if verdict == NotIterable {
          return Crashed("TypeError");
        }
        if verdict == Reject {
          return Aborted(Unprocessable);
        }
        drink := drink.(recipe := Dumps(recipe.value));
      }
      var updated := Update(id, drink, dbFails);
      if !updated {
        return Aborted(Unprocessable);
      }
      return Done(DrinksBody(true, [Long(id, drink)]));
    }

    /** DELETE /drinks/<id>: behind `delete:drinks`; exactly that row goes. */
    method DeleteDrink(req: Auth.Request, id: int, dbFails: bool) returns (h: Handled)
      requires Valid()
      modifies this
      ensures Valid()
      ensures nextId == old(nextId)
      ensures var a := Auth.AuthPipeline(DeletePermission, req);
        !a.Ok? ==> h == Denied(a) && drinks == old(drinks)
      ensures Auth.AuthPipeline(DeletePermission, req).Ok? && id !in old(drinks) ==>
        h == Aborted(NotFound) && drinks == old(drinks)
      ensures Auth.AuthPipeline(DeletePermission, req).Ok? && id in old(drinks) && dbFails ==>
        h == Aborted(Unprocessable) && drinks == old(drinks)
      ensures Auth.AuthPipeline(DeletePermission, req).Ok? && id in old(drinks) && !dbFails ==>
        drinks == old(drinks) - {id} && h == Done(DeletedBody(true, id))
    {
      var auth := Auth.RequiresAuth(DeletePermission, req);
      if !auth.Ok? {
        return Denied(auth);
      }
      if id !in drinks {
        return Aborted(NotFound);
      }
      var deleted := Delete(id, dbFails);
      if !deleted {
        return Aborted(Unprocessable);
      }
      return Done(DeletedBody(true, id));
    }
  }

  // ---------------------------------------------------------------------------
  // Error handlers

  function StatusCode(e: HttpError): int {
    match e
    case NotFound => 404
    case Unprocessable => 422
    case InternalServerError => 500
  }

  function UnprocessableHandler(): HttpResponse {
    HttpResponse(422, ErrorBody(false, 422, "Unprocessable Entity"))
  }

  function NotFoundHandler(): HttpResponse {
    HttpResponse(404, ErrorBody(false, 404, "Not Found"))
  }

  function CatchAll(): HttpResponse {
    HttpResponse(500, ErrorBody(false, 500, "Internal Server Error"))
  }

  function AuthErrorHandler(ex: Auth.AuthError): HttpResponse {
    HttpResponse(ex.statusCode, AuthErrorBody(ex.error))
  }

  /** The response Flask sends for a handler's outcome: a body with 200, the
      registered handler of an aborted status, the AuthError's own body and
      status, and the 500 handler for any other exception. */
  function Respond(h: Handled): (resp: HttpResponse)
    ensures h.Done? ==> resp == HttpResponse(200, h.body)
    ensures h.Raised? ==> resp.status == h.authError.statusCode && resp.body == AuthErrorBody(h.authError.error)
    ensures h.Aborted? ==> resp.status == StatusCode(h.status)
    ensures h.Crashed? ==> resp.status == 500
    ensures h.Aborted? || h.Crashed? ==>
      resp.body.ErrorBody? && !resp.body.success && resp.body.error == resp.status
    ensures resp.body.ErrorBody? && resp.status == 404 ==> resp.body.message == "Not Found"
    ensures resp.body.ErrorBody? && resp.status == 422 ==> resp.body.message == "Unprocessable Entity"
    ensures resp.body.ErrorBody? && resp.status == 500 ==> resp.body.message == "Internal Server Error"
  {
    match h
    case Done(body) => HttpResponse(200, body)
    case Aborted(NotFound) => NotFoundHandler()
    case Aborted(Unprocessable) => UnprocessableHandler()
    case Aborted(InternalServerError) => CatchAll()
    case Raised(ex) => AuthErrorHandler(ex)
    case Crashed(_) => CatchAll()
  }

  /** Every refusal by `requires_auth` reaches the client as 401 with the
      AuthError's `{code, description}`; a non-auth exception inside it as 500. */
  lemma RefusedRequestsAnswer401(permission: string, req: Auth.Request)
    requires !Auth.AuthPipeline(permission, req).Ok?
    ensures var a := Auth.AuthPipeline(permission, req);
      && (a.Fail? ==> Respond(Denied(a)) == HttpResponse(401, AuthErrorBody(a.error.error)))
      && (a.Crash? ==> Respond(Denied(a)).status == 500)
  {
  }
}
