/**
 * The home screen of the mobile client: its four pieces of state
 * (`ingredients`, `inputText`, `recipes`, `loading`) and the handlers that
 * change them. The network is an oracle from request to reply; the model
 * returns the requests a handler issued and the alert it showed.
 */
module HomeScreen {
  import opened Wrappers
  import opened Text
  import opened Json
  import opened IngredientList

  /** `API_URL`, the recipe server's address. */
  const ApiUrl := "http://192.168.39.108:5001"
  /** The `Origin` header the generation request sends. */
  const OriginHeader := "http://192.168.39.108"
  /** The `maxLength` of the ingredient text input. */
  const MaxInputLength := 30
  /** Recipes asked for per request. */
  const RecipesPerRequest := 3

  /** A notice shown with `Alert.alert(title, message)`. */
  datatype Alert = Alert(title: string, message: string)

  datatype HttpRequest =
    | Get(url: string)
    | Post(url: string, headers: seq<(string, string)>, body: Value)

  /** What `fetch` yields: a rejection with the error's message, or a
      response with its status, its body read as text and read as JSON. */
  datatype HttpReply =
    | Unreachable(message: string)
    | Reply(status: int, text: string, json: Parse)

  /** `response.ok` */
  predicate IsOk(status: int) {
    200 <= status <= 299
  }

  /** The value of a property access `data.key`. */
  datatype Property = Undefined | Defined(value: Value)

  /** `data.key` on a value other than `null` (which throws instead): objects
      answer with their field, everything else has no such property. */
  function Member(data: Value, key: string): (r: Property)
    requires !data.Null?
    ensures r.Defined? <==> data.Obj? && key in data.fields
    ensures r.Defined? ==> r.value == data.fields[key]
  {
    if data.Obj? && key in data.fields then Defined(data.fields[key]) else Undefined
  }

  /** JavaScript truthiness: `undefined`, `null`, `false`, `0` and the empty
      string are false, and nothing else is (empty arrays and objects are true). */
  predicate Truthy(p: Property)
    ensures !Truthy(p) <==> p in {Undefined, Defined(Null), Defined(Bool(false)), Defined(Num(0)), Defined(Str([]))}
  {
    match p
    case Undefined => false
    case Defined(v) =>
      match v
      case Null => false
      case Bool(b) => b
      case Num(n) => n != 0
      case Str(s) => s != []
      case Arr(_) => true
      case Obj(_) => true
  }

  /** `String(v)`, the message `new Error(v)` carries. A string is its own
      text; any other truthy value except an array has a non-empty text,
      while an array's can be empty. */
  function JsString(v: Value): (r: string)
    ensures v.Str? ==> r == v.s
    ensures Truthy(Defined(v)) && !v.Arr? ==> r != []
    ensures v == Arr([]) ==> r == []
    decreases v
  {
    match v
    case Null => "null"
    case Bool(b) => if b then "true" else "false"
    case Num(n) => IntToString(n)
    case Str(s) => s
    case Arr(items) =>
      Join(seq(|items|, i requires 0 <= i < |items| =>
             if items[i].Null? then [] else JsString(items[i])), ",")
    case Obj(_) => "[object Object]"
  }

  /** The message the health-probe failure is thrown with. */
  const NotRespondingMessage := "Server is not responding"
  /** The message a reply without a recipe array is thrown with. */
  const BadFormatMessage := "Invalid recipe data format"
  /** The JavaScript engine's TypeError message for reading `error` of
      `null` (the text is the engine's; this is a stand-in). */
  const NullAccessMessage := "Cannot read property 'error' of null"

  /** How a fetch ended: stopped before any request, an error thrown with its
      message, or a recipe array received. */
  datatype FetchResult = NoIngredients | Threw(message: string) | Loaded(recipes: seq<Value>)

  /** The requests a fetch issued, in order, and how it ended. */
  datatype FetchRun = FetchRun(requests: seq<HttpRequest>, result: FetchResult)

  function HealthRequest(): HttpRequest {
    Get(ApiUrl + "/health")
  }

  /** The generation request: the entries joined with ", " and the fixed count. */
  function GenerateRequest(ingredients: seq<string>): HttpRequest {
    Post(ApiUrl + "/generate-recipes",
         [("Accept", "application/json"), ("Content-Type", "application/json"), ("Origin", OriginHeader)],
         Obj(map["ingredients" := Str(Join(ingredients, ", ")), "num_recipes" := Num(RecipesPerRequest)]))
  }

  /** `Server error: `, which the client puts before the text of a failed reply. */
  const ServerErrorPrefix := "Server error: "

  /** What the client makes of the generation reply: recipes are loaded
      exactly when the reply delivers them, and then they are the delivered
      array; anything else is an error thrown. */
  function GenerationResult(reply: HttpReply): (r: FetchResult)
    ensures r != NoIngredients
    ensures r.Loaded? ==> Delivers(reply, r.recipes)
    ensures forall rs :: Delivers(reply, rs) ==> r == Loaded(rs)
  {
    match reply
    case Unreachable(message) => Threw(message)
    case Reply(status, text, json) =>
      if !IsOk(status) then Threw(ServerErrorPrefix + text)
      else match json
        case SyntaxError(message) => Threw(message)
        case Parsed(data) =>
          if data.Null? then Threw(NullAccessMessage)
          else if Truthy(Member(data, "error")) then Threw(JsString(Member(data, "error").value))
          else
            var found := Member(data, "recipes");
            if !Truthy(found) || !found.value.Arr? then Threw(BadFormatMessage)
            else Loaded(found.value.items)
  }

  /** `fetchRecipes` as a function of the list and the network: nothing is
      sent for an empty list, the health probe goes first, and the generation
      request for exactly this list goes second, only after a healthy probe. */
  function RunFetch(ingredients: seq<string>, network: HttpRequest -> HttpReply): (run: FetchRun)
    ensures run.result == NoIngredients <==> ingredients == []
    ensures run.requests == [] <==> ingredients == []
    ensures |run.requests| <= 2
    ensures |run.requests| >= 1 ==> run.requests[0] == HealthRequest()
    ensures |run.requests| == 2 <==>
              ingredients != [] && network(HealthRequest()).Reply?
              && IsOk(network(HealthRequest()).status)
    ensures |run.requests| == 2 ==> run.requests[1] == GenerateRequest(ingredients)
    ensures |run.requests| == 2 ==> run.result == GenerationResult(network(GenerateRequest(ingredients)))
    ensures ingredients != [] && network(HealthRequest()).Unreachable? ==>
              run.result == Threw(network(HealthRequest()).message)
    ensures run.result.Loaded? ==> |run.requests| == 2
  {
    if ingredients == [] then FetchRun([], NoIngredients)
    else
      var probe := HealthRequest();
      match network(probe)
      case Unreachable(message) => FetchRun([probe], Threw(message))
      case Reply(status, _, _) =>
        if !IsOk(status) then FetchRun([probe], Threw(NotRespondingMessage))
        else
          var post := GenerateRequest(ingredients);
          FetchRun([probe, post], GenerationResult(network(post)))
  }

  /** The alert shown when the health probe failed, in its two sentences. */
  const ConnectionMessage := ConnectionLead + " Please check your connection and try again."
  const ConnectionLead := "Unable to connect to the server."

  /** The connection message starts with `U`, where `FailedPrefix` starts with `F`. */
  lemma ConnectionMessageStart()
    ensures ConnectionMessage[0] == 'U'
  {
    assert ConnectionLead[0] == 'U';
  }

  /** What the catch block puts before a thrown message. */
  const FailedPrefix := "Failed to get recipes: "

  /** The alert the catch block shows for a thrown message: the connection
      message exactly when the health probe failed, otherwise the thrown
      message after `FailedPrefix`. */
  function ErrorAlert(message: string): (a: Alert)
    ensures a.title == "Error"
    ensures a.message == ConnectionMessage <==> message == NotRespondingMessage
    ensures message != NotRespondingMessage ==> a.message == FailedPrefix + message
  {
    ConnectionMessageStart();
    assert FailedPrefix[0] == 'F';
    assert (FailedPrefix + message)[0] == 'F';
    Alert("Error", if message == NotRespondingMessage then ConnectionMessage
                   else FailedPrefix + message)
  }

  /** The alert a fetch ends with: none exactly when recipes were loaded. */
  function FetchAlert(result: FetchResult): (a: Option<Alert>)
    ensures a.None? <==> result.Loaded?
    ensures result.NoIngredients? ==> a.value.title == "No Ingredients"
    ensures result.Threw? ==> a == Some(ErrorAlert(result.message))
  {
    match result
    case NoIngredients => Some(Alert("No Ingredients", "Please add at least one ingredient first."))
    case Threw(message) => Some(ErrorAlert(message))
    case Loaded(_) => None
  }

  /** The alert `handleAddIngredient` shows for each rejection; the full-list
      alert names the cap in decimal. */
  function RejectionAlert(why: AddRejection): (a: Alert)
    ensures why == MaximumIngredients ==> a.message == "You can only add up to 100 ingredients"
  {
    CapText();
    match why
    case InvalidInput => Alert("Invalid Input", "Please enter an ingredient")
    case MaximumIngredients =>
      Alert("Maximum Ingredients", "You can only add up to " + IntToString(MaxIngredients) + " ingredients")
    case DuplicateIngredient => Alert("Duplicate Ingredient", "This ingredient is already in your list")
  }

  /** A failed health probe ends the fetch: the generation request is never
      sent and the user is told the server cannot be reached. */
  lemma UnhealthyServerIsNotAsked(ingredients: seq<string>, network: HttpRequest -> HttpReply)
    requires ingredients != []
    requires network(HealthRequest()).Reply? && !IsOk(network(HealthRequest()).status)
    ensures RunFetch(ingredients, network) == FetchRun([HealthRequest()], Threw(NotRespondingMessage))
    ensures FetchAlert(RunFetch(ingredients, network).result) == Some(Alert("Error", ConnectionMessage))
  {
  }

  /** A generation reply delivers recipes `rs` exactly when it is a 2xx
      response whose JSON is an object with no truthy `error` and with an
      array `recipes` holding `rs`. */
  predicate Delivers(reply: HttpReply, rs: seq<Value>) {
    && reply.Reply? && IsOk(reply.status)
    && reply.json.Parsed? && reply.json.value.Obj?
    && var fields := reply.json.value.fields;
       && !("error" in fields && Truthy(Defined(fields["error"])))
       && "recipes" in fields && fields["recipes"] == Arr(rs)
  }

  /** A fetch loads recipes exactly when the list is non-empty, the probe is
      healthy and the generation reply delivers them; then `recipes` becomes
      precisely the delivered array. */
  lemma {:induction false} LoadedExactly(ingredients: seq<string>, network: HttpRequest -> HttpReply, rs: seq<Value>)
    ensures RunFetch(ingredients, network).result == Loaded(rs) <==>
              && ingredients != []
              && network(HealthRequest()).Reply? && IsOk(network(HealthRequest()).status)
              && Delivers(network(GenerateRequest(ingredients)), rs)
  {
    if ingredients != [] && network(HealthRequest()).Reply? && IsOk(network(HealthRequest()).status) {
      var reply := network(GenerateRequest(ingredients));
      assert RunFetch(ingredients, network).result == GenerationResult(reply);
      if GenerationResult(reply) == Loaded(rs) {
        assert reply.Reply? && reply.json.Parsed? && !reply.json.value.Null?;
        assert Member(reply.json.value, "recipes").Defined?;
      }
    }
  }

  /** The request names every entry: for a non-empty list whose entries hold
      no comma, cutting the `ingredients` text at ", " gives the list back;
      `num_recipes` is always 3. */
  lemma RequestCarriesList(ingredients: seq<string>)
    requires ingredients != []
    requires forall i :: 0 <= i < |ingredients| ==> ',' !in ingredients[i]
    ensures var body := GenerateRequest(ingredients).body;
            && body.Obj? && "ingredients" in body.fields && "num_recipes" in body.fields
            && body.fields["ingredients"].Str?
            && SplitCommaSpace(body.fields["ingredients"].s) == ingredients
            && body.fields["num_recipes"] == Num(3)
  {
    SplitJoin(ingredients);
  }

  /** `MAX_INGREDIENTS` written in decimal. */
  lemma CapText()
    ensures IntToString(MaxIngredients) == "100"
  {
    assert NatToString(1) == "1";
    assert NatToString(10) == NatToString(1) + "0";
    assert NatToString(100) == NatToString(10) + "0";
  }

  /** The three rejections show three different alerts. */
  lemma RejectionAlertsDiffer(a: AddRejection, b: AddRejection)
    ensures RejectionAlert(a) == RejectionAlert(b) <==> a == b
  {
  }

  /** A truthy `error` in a 2xx object reply is thrown as its `String`
      text, whatever the status and the text of the reply; a string error
      is thrown as that string. The user reads it after `FailedPrefix`,
      unless it is the probe's own message, which then reads as the
      connection message. */
  lemma ErrorFieldIsShown(status: int, text: string, fields: map<string, Value>)
    requires IsOk(status)
    requires "error" in fields && Truthy(Defined(fields["error"]))
    ensures GenerationResult(Reply(status, text, Parsed(Obj(fields)))) == Threw(JsString(fields["error"]))
    ensures fields["error"].Str? ==>
              && GenerationResult(Reply(status, text, Parsed(Obj(fields)))) == Threw(fields["error"].s)
              && FetchAlert(Threw(fields["error"].s)) == Some(Alert("Error",
                   if fields["error"].s == NotRespondingMessage then ConnectionMessage
                   else FailedPrefix + fields["error"].s))
  {
  }

  /** A 2xx object reply with no truthy `error` is refused as badly
      formatted exactly when its `recipes` is missing or not an array. */
  lemma RecipesMustBeArray(status: int, text: string, fields: map<string, Value>)
    requires IsOk(status)
    requires !("error" in fields && Truthy(Defined(fields["error"])))
    ensures GenerationResult(Reply(status, text, Parsed(Obj(fields)))) == Threw(BadFormatMessage)
            <==> !("recipes" in fields && fields["recipes"].Arr?)
  {
  }

  /** For instance, `{"recipes": "not-an-array"}` is refused. */
  lemma StringRecipesRefused()
    ensures GenerationResult(Reply(200, [], Parsed(Obj(map["recipes" := Str("not-an-array")]))))
            == Threw(BadFormatMessage)
  {
    RecipesMustBeArray(200, [], map["recipes" := Str("not-an-array")]);
  }

  /** A non-2xx generation reply is thrown as `Server error: ` and its text,
      whatever its body; the user reads that after `FailedPrefix`. */
  lemma ServerErrorIsShown(status: int, text: string, json: Parse)
    requires !IsOk(status)
    ensures GenerationResult(Reply(status, text, json)) == Threw(ServerErrorPrefix + text)
    ensures FetchAlert(Threw(ServerErrorPrefix + text))
            == Some(Alert("Error", FailedPrefix + (ServerErrorPrefix + text)))
  {
    assert ServerErrorPrefix[7] == 'e' && NotRespondingMessage[7] == 'i';
    assert (ServerErrorPrefix + text)[7] == 'e';
  }

  /** One recipe named "Soup" in, one recipe named "Soup" loaded. */
  lemma SoupIsLoaded(soup: Value)
    requires soup == Obj(map["recipe_name" := Str("Soup"), "cooking_time" := Str("20m"),
                             "difficulty" := Str("Easy"),
                             "ingredients_list" := Arr([Str("water"), Str("salt")]),
                             "instructions" := Arr([Str("Boil water"), Str("Add salt")])])
    ensures var result := GenerationResult(Reply(200, [], Parsed(Obj(map["recipes" := Arr([soup])]))));
            result.Loaded? && |result.recipes| == 1
            && result.recipes[0].Obj? && result.recipes[0].fields["recipe_name"] == Str("Soup")
  {
  }

  class Screen {
    var ingredients: seq<string>
    var inputText: string
    var recipes: seq<Value>
    var loading: bool

    /** The list invariant, the input's length limit, and no fetch in
        progress between handler calls. */
    ghost predicate Valid()
      reads this
    {
      && WellFormed(ingredients)
      && (forall i :: 0 <= i < |ingredients| ==> |ingredients[i]| <= MaxInputLength)
      && |inputText| <= MaxInputLength
      && !loading
    }

    /** The screen as it first renders: everything empty. */
    constructor ()
      ensures Valid()
      ensures ingredients == [] && inputText == [] && recipes == [] && !loading
    {
      ingredients, inputText, recipes, loading := [], [], [], false;
    }

    /** `onChangeText={setInputText}`; the text input holds at most
        `MaxInputLength` characters. */
    method ChangeText(text: string)
      requires Valid() && |text| <= MaxInputLength
      modifies this`inputText
      ensures Valid() && inputText == text
    {
      inputText := text;
    }

    /** `handleAddIngredient`: the list and the input change exactly as
        `TryAdd` says, or not at all, and a rejection is reported. */
    method AddIngredient() returns (alert: Option<Alert>)
      requires Valid()
      modifies this`ingredients, this`inputText
      ensures Valid()
      ensures match TryAdd(old(ingredients), old(inputText))
        case Added(list) => ingredients == list && inputText == [] && alert == None
        case Rejected(why) =>
          && ingredients == old(ingredients) && inputText == old(inputText)
          && alert == Some(RejectionAlert(why))
    {
      var entry := Normalize(inputText);
      TryAddWellFormed(ingredients, inputText);
      if entry == [] {
        alert := Some(RejectionAlert(InvalidInput));
        return;
      }
      if |ingredients| >= MaxIngredients {
        alert := Some(RejectionAlert(MaximumIngredients));
        return;
      }
      if entry in ingredients {
        alert := Some(RejectionAlert(DuplicateIngredient));
        return;
      }
      ingredients := ingredients + [entry];
      inputText := [];
      alert := None;
    }

    /** `handleRemoveIngredient`: the list becomes `Remove(list, x)`. */
    method RemoveIngredient(x: string)
      requires Valid()
      modifies this`ingredients
      ensures Valid()
      ensures ingredients == Remove(old(ingredients), x)
    {
      RemoveWellFormed(ingredients, x);
      var kept := Remove(ingredients, x);
      assert forall i :: 0 <= i < |kept| ==> kept[i] in ingredients;
      ingredients := kept;
    }

    /** `fetchRecipes`: issues the requests `RunFetch` lists, shows the alert
        it ends with, replaces `recipes` only when an array arrived, and
        leaves `loading` cleared. The button is disabled while `loading`. */
    method FetchRecipes(network: HttpRequest -> HttpReply)
      returns (requests: seq<HttpRequest>, alert: Option<Alert>)
      requires Valid()
      modifies this`recipes, this`loading
      ensures Valid()
      ensures var run := RunFetch(ingredients, network);
        && requests == run.requests
        && alert == FetchAlert(run.result)
        && recipes == (if run.result.Loaded? then run.result.recipes else old(recipes))
    {
      if |ingredients| == 0 {
        requests := [];
        alert := FetchAlert(NoIngredients);
        return;
      }
      loading := true;
      var thrown: Option<string> := None;
      label attempt: {
        var probe := HealthRequest();
        requests := [probe];
        var health := network(probe);
        if health.Unreachable? {
          thrown := Some(health.message);
          break attempt;
        }
        if !IsOk(health.status) {
          thrown := Some(NotRespondingMessage);
          break attempt;
        }
        var post := GenerateRequest(ingredients);
        requests := requests + [post];
        var response := network(post);
        if response.Unreachable? {
          thrown := Some(response.message);
          break attempt;
        }
        if !IsOk(response.status) {
          thrown := Some(ServerErrorPrefix + response.text);
          break attempt;
        }
        if response.json.SyntaxError? {
          thrown := Some(response.json.message);
          break attempt;
        }
        var data := response.json.value;
        if data.Null? {
          thrown := Some(NullAccessMessage);
          break attempt;
        }
        var error := Member(data, "error");
        if Truthy(error) {
          thrown := Some(JsString(error.value));
          break attempt;
        }
        var found := Member(data, "recipes");
        if !Truthy(found) || !found.value.Arr? {
          thrown := Some(BadFormatMessage);
          break attempt;
        }
        recipes := found.value.items;
      }
      alert := if thrown.Some? then Some(ErrorAlert(thrown.value)) else None;
      loading := false;
    }
  }
}
