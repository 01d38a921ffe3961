/**
 * The client's fetch run against the server's routes. The network here
 * carries each request body to the server unchanged and brings the route's
 * JSON reply back, as `JSON.stringify` on one side and `request.get_json()`
 * on the other would.
 */
module EndToEnd {
  import opened Wrappers
  import opened Text
  import opened Json
  import opened IngredientList
  import H = HomeScreen
  import S = RecipeServer
  import P = Python

  /** What the client receives for a route's response; `render` is the text
      of a JSON body. Only the routes' JSON bodies reach the client. */
  function Transmit(response: S.Response, render: Value -> string): H.HttpReply {
    match response.body
    case JsonBody(v) => H.Reply(response.status, render(v), Parsed(v))
    case Empty => H.Reply(response.status, "", SyntaxError("Unexpected end of JSON input"))
  }

  /** The server reached at `ApiUrl`: the health route, the generation route
      for a POST, and nothing else. */
  function Server(llm: (Value, int) -> S.LlmReply, loads: string -> Parse, render: Value -> string)
    : H.HttpRequest -> H.HttpReply
  {
    request =>
      if request == H.HealthRequest() then Transmit(S.HealthCheck(), render)
      else if request.Post? && request.url == H.ApiUrl + "/generate-recipes" then
        Transmit(S.GenerateRecipes(S.POST, Success(request.body), llm, loads), render)
      else H.Unreachable("Network request failed")
  }

  /** The body the client sends for any list it can hold passes every check
      of the route, which then asks the model for the joined list and 3
      recipes. */
  lemma ClientRequestAccepted(ingredients: seq<string>)
    requires WellFormed(ingredients) && ingredients != []
    ensures S.Validate(Success(H.GenerateRequest(ingredients).body))
            == Success((Str(Join(ingredients, ", ")), H.RecipesPerRequest))
  {
    var joined := Join(ingredients, ", ");
    var fields := map["ingredients" := Str(joined), "num_recipes" := Num(H.RecipesPerRequest)];
    assert H.GenerateRequest(ingredients).body == Obj(fields);
    assert "ingredients" in fields.Keys;
    assert joined != [] by {
      assert IsIngredient(ingredients[0]);
      JoinNonEmpty(ingredients, ", ");
    }
  }

  /** The health route satisfies the client's probe. */
  lemma HealthProbePasses(llm: (Value, int) -> S.LlmReply, loads: string -> Parse, render: Value -> string)
    ensures Server(llm, loads, render)(H.HealthRequest()).Reply?
    ensures H.IsOk(Server(llm, loads, render)(H.HealthRequest()).status)
  {
  }

  /** What `get_recipes` returns for the client's list. */
  function Answer(ingredients: seq<string>, llm: (Value, int) -> S.LlmReply, loads: string -> Parse): Value {
    S.GetRecipes(Str(Join(ingredients, ", ")), H.RecipesPerRequest, llm, loads)
  }

  /** Against this server a fetch for a list the screen can hold sends the
      probe and then the generation request, and ends with what the client
      makes of a 200 reply carrying `get_recipes`' result. */
  lemma FetchAgainstServer(ingredients: seq<string>, llm: (Value, int) -> S.LlmReply,
                           loads: string -> Parse, render: Value -> string)
    requires WellFormed(ingredients) && ingredients != []
    ensures var run := H.RunFetch(ingredients, Server(llm, loads, render));
            var v := Answer(ingredients, llm, loads);
            && run.requests == [H.HealthRequest(), H.GenerateRequest(ingredients)]
            && run.result == H.GenerationResult(H.Reply(200, render(v), Parsed(v)))
  {
    HealthProbePasses(llm, loads, render);
    GenerationReply(ingredients, llm, loads, render);
  }

  /** The server answers the client's generation request with 200 and the
      result of `get_recipes`. */
  lemma GenerationReply(ingredients: seq<string>, llm: (Value, int) -> S.LlmReply,
                        loads: string -> Parse, render: Value -> string)
    requires WellFormed(ingredients) && ingredients != []
    ensures var v := Answer(ingredients, llm, loads);
            Server(llm, loads, render)(H.GenerateRequest(ingredients)) == H.Reply(200, render(v), Parsed(v))
  {
    var post := H.GenerateRequest(ingredients);
    ClientRequestAccepted(ingredients);
    assert post != H.HealthRequest();
  }

  /** The client reads an error result of `get_recipes` as its message
      thrown, except an empty message, which it reads as no recipes. */
  lemma ClientReadsErrorResult(message: string, text: string)
    ensures H.GenerationResult(H.Reply(200, text, Parsed(S.ErrorResult(message))))
            == if message != [] then H.Threw(message) else H.Loaded([])
  {
    var fields := S.ErrorResult(message).fields;
    assert "error" in fields && fields["error"] == Str(message);
    assert "recipes" in fields && fields["recipes"] == Arr([]);
  }

  /** An exception while asking the model reaches the user as its message. */
  lemma ModelFailureIsShown(ingredients: seq<string>, llm: (Value, int) -> S.LlmReply,
                            loads: string -> Parse, render: Value -> string, message: string)
    requires WellFormed(ingredients) && ingredients != []
    requires llm(Str(Join(ingredients, ", ")), H.RecipesPerRequest) == S.Raised(message)
    requires message != []
    ensures H.RunFetch(ingredients, Server(llm, loads, render)).result == H.Threw(message)
    ensures H.FetchAlert(H.RunFetch(ingredients, Server(llm, loads, render)).result)
            == Some(H.ErrorAlert(message))
  {
    FetchAgainstServer(ingredients, llm, loads, render);
    assert Answer(ingredients, llm, loads) == S.ErrorResult(message);
    ClientReadsErrorResult(message, render(S.ErrorResult(message)));
  }

  /** An exception with an empty message gives an error result whose error
      is falsy in JavaScript: the client then loads the empty recipe list
      and shows no alert. */
  lemma SilentEmptyFailure(ingredients: seq<string>, llm: (Value, int) -> S.LlmReply,
                           loads: string -> Parse, render: Value -> string)
    requires WellFormed(ingredients) && ingredients != []
    requires llm(Str(Join(ingredients, ", ")), H.RecipesPerRequest) == S.Raised("")
    ensures H.RunFetch(ingredients, Server(llm, loads, render)).result == H.Loaded([])
    ensures H.FetchAlert(H.RunFetch(ingredients, Server(llm, loads, render)).result).None?
  {
    FetchAgainstServer(ingredients, llm, loads, render);
    assert Answer(ingredients, llm, loads) == S.ErrorResult("");
    ClientReadsErrorResult("", render(S.ErrorResult("")));
  }

  /** A model answer without a `{` reaches the user as the server's reason. */
  lemma NoJsonIsShown(ingredients: seq<string>, llm: (Value, int) -> S.LlmReply,
                      loads: string -> Parse, render: Value -> string)
    requires WellFormed(ingredients) && ingredients != []
    requires llm(Str(Join(ingredients, ", ")), H.RecipesPerRequest).Answered?
    requires S.ExtractJson(llm(Str(Join(ingredients, ", ")), H.RecipesPerRequest).text).None?
    ensures H.RunFetch(ingredients, Server(llm, loads, render)).result == H.Threw(S.NoJsonMessage)
  {
    FetchAgainstServer(ingredients, llm, loads, render);
    assert Answer(ingredients, llm, loads) == S.ErrorResult(S.NoJsonMessage);
    ClientReadsErrorResult(S.NoJsonMessage, render(S.ErrorResult(S.NoJsonMessage)));
  }

  /** When the model's JSON parses to an object with a recipe array and no
      error, the screen loads exactly that array. */
  lemma RecipesArrive(ingredients: seq<string>, llm: (Value, int) -> S.LlmReply,
                      loads: string -> Parse, render: Value -> string, rs: seq<Value>)
    requires WellFormed(ingredients) && ingredients != []
    requires llm(Str(Join(ingredients, ", ")), H.RecipesPerRequest).Answered?
    requires var text := llm(Str(Join(ingredients, ", ")), H.RecipesPerRequest).text;
             S.ExtractJson(text).Some? && loads(S.ExtractJson(text).value) == Parsed(Obj(map["recipes" := Arr(rs)]))
    ensures H.RunFetch(ingredients, Server(llm, loads, render)).result == H.Loaded(rs)
  {
    var v := Obj(map["recipes" := Arr(rs)]);
    FetchAgainstServer(ingredients, llm, loads, render);
    assert Answer(ingredients, llm, loads) == v;
    ClientReadsRecipes(rs, render(v));
  }

  /** The client loads the array of a reply `{"recipes": rs}`. */
  lemma ClientReadsRecipes(rs: seq<Value>, text: string)
    ensures H.GenerationResult(H.Reply(200, text, Parsed(Obj(map["recipes" := Arr(rs)])))) == H.Loaded(rs)
  {
    var fields := map["recipes" := Arr(rs)];
    assert "error" !in fields;
    assert "recipes" in fields && fields["recipes"] == Arr(rs);
  }

  /** The two ends disagree on truthiness exactly for the empty array and
      the empty object: the server refuses `"ingredients": []` as empty,
      where the client takes an empty array as present. */
  lemma TruthinessDiffers(v: Value)
    ensures H.Truthy(H.Defined(v)) != P.Truthy(v) <==> v == Arr([]) || v == Obj(map[])
  {
  }

  /** On an object, the client's `data.key` and the server's `data[key]`
      find the same fields with the same values. */
  lemma MemberMatchesIndex(data: Value, key: string)
    requires data.Obj?
    ensures H.Member(data, key).Defined? <==> P.Index(data, key).Success?
    ensures H.Member(data, key).Defined? ==> H.Member(data, key).value == P.Index(data, key).value
  {
  }
}
