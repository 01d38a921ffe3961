/**
 * The recipe server (main.py): the `/generate-recipes` route with its
 * validation chain, `get_recipes` with its JSON extraction from the model's
 * answer, and the `/health` route. The language-model call and `json.loads`
 * are oracles passed in as functions.
 */
module RecipeServer {
  import opened Wrappers
  import opened Json
  import opened Python

  /** The methods the `/generate-recipes` route accepts; Flask itself
      answers any other method with 405. */
  datatype Method = POST | OPTIONS

  datatype Body = Empty | JsonBody(value: Value)

  /** A Flask response: a body and a status code. */
  datatype Response = Response(body: Body, status: int)

  /** What invoking the model chain gives: its answer text, or `str(e)` of
      the exception it raised. */
  datatype LlmReply = Answered(text: string) | Raised(message: string)

  /** `s[i..j]` is a match of the pattern `\{[\s\S]*\}`: it starts with `{`
      and ends with a later `}`. */
  predicate IsMatch(s: string, i: int, j: int) {
    0 <= i && i + 2 <= j <= |s| && s[i] == '{' && s[j - 1] == '}'
  }

  /** The first position of `c` in `s`, if any. */
  function FirstIndex(s: string, c: char): (r: Option<nat>)
    ensures r.None? <==> forall k :: 0 <= k < |s| ==> s[k] != c
    ensures r.Some? ==> r.value < |s| && s[r.value] == c
    ensures r.Some? ==> forall k :: 0 <= k < r.value ==> s[k] != c
  {
    if s == [] then None
    else if s[0] == c then Some(0)
    else
      match FirstIndex(s[1..], c)
      case None => None
      case Some(k) => Some(k + 1)
  }

  /** The last position of `c` in `s`, if any. */
  function LastIndex(s: string, c: char): (r: Option<nat>)
    ensures r.None? <==> forall k :: 0 <= k < |s| ==> s[k] != c
    ensures r.Some? ==> r.value < |s| && s[r.value] == c
    ensures r.Some? ==> forall k :: r.value < k < |s| ==> s[k] != c
  {
    if s == [] then None
    else if s[|s| - 1] == c then Some(|s| - 1)
    else LastIndex(s[..|s| - 1], c)
  }

  /** `re.search(r'(\{[\s\S]*\})', s)`: the span `s[i..j]` of the match. The
      pattern matches exactly when some `{` comes before some `}`; the match
      found starts at the leftmost `{` and, the star being greedy, ends at the
      rightmost `}`. */
  function Search(s: string): (r: Option<(nat, nat)>)
    ensures r.None? <==> forall i, j :: 0 <= i < j < |s| ==> !(s[i] == '{' && s[j] == '}')
    ensures r.Some? ==> IsMatch(s, r.value.0, r.value.1)
    ensures r.Some? ==> forall i :: 0 <= i < r.value.0 ==> s[i] != '{'
    ensures r.Some? ==> forall j :: r.value.1 <= j < |s| ==> s[j] != '}'
  {
    match FirstIndex(s, '{')
    case None => None
    case Some(i) =>
      match LastIndex(s, '}')
      case None => None
      case Some(k) => if i < k then Some((i, k + 1)) else None
  }

  /** Every span the pattern could match lies within the one found: no other
      match starts earlier or, starting at the same `{`, ends later. */
  lemma SearchLeftmostLongest(s: string, i: int, j: int)
    requires IsMatch(s, i, j)
    ensures Search(s).Some?
    ensures Search(s).value.0 <= i
    ensures Search(s).value.0 == i ==> j <= Search(s).value.1
  {
    assert s[i] == '{' && s[j - 1] == '}';
  }

  /** `match.group(1)`: the text of the match. */
  function ExtractJson(s: string): (r: Option<string>)
    ensures r.Some? <==> exists i, j :: 0 <= i < j < |s| && s[i] == '{' && s[j] == '}'
    ensures r.Some? ==> 2 <= |r.value| && r.value[0] == '{' && r.value[|r.value| - 1] == '}'
    ensures r.Some? ==> r.value == s[Search(s).value.0..Search(s).value.1]
  {
    match Search(s)
    case None => None
    case Some((i, j)) =>
      assert s[i] == '{' && s[j - 1] == '}';
      Some(s[i..j])
  }

  const NoJsonMessage := "No valid JSON found in response"
  const BadJsonMessage := "Invalid JSON format"

  /** The dict `get_recipes` returns when it gives up: exactly the keys
      `recipes`, an empty list, and `error`, the reason. */
  function ErrorResult(message: string): (r: Value)
    ensures r.Obj? && r.fields.Keys == {"recipes", "error"}
    ensures r.fields["recipes"] == Arr([]) && r.fields["error"] == Str(message)
  {
    Obj(map["recipes" := Arr([]), "error" := Str(message)])
  }

  /** `get_recipes`: ask the model, cut the JSON object out of its answer and
      parse it; the parsed value is returned as it is, and every failure
      becomes an error result. */
  function GetRecipes(ingredients: Value, numRecipes: int,
                      llm: (Value, int) -> LlmReply, loads: string -> Parse): (r: Value)
    ensures llm(ingredients, numRecipes).Raised? ==> r == ErrorResult(llm(ingredients, numRecipes).message)
    ensures llm(ingredients, numRecipes).Answered? ==>
              var text := llm(ingredients, numRecipes).text;
              if exists i, j :: 0 <= i < j < |text| && text[i] == '{' && text[j] == '}' then
                var parsed := loads(ExtractJson(text).value);
                r == if parsed.Parsed? then parsed.value else ErrorResult(BadJsonMessage)
              else r == ErrorResult(NoJsonMessage)
  {
    match llm(ingredients, numRecipes)
    case Raised(message) => ErrorResult(message)
    case Answered(text) =>
      match ExtractJson(text)
      case None => ErrorResult(NoJsonMessage)
      case Some(json) =>
        match loads(json)
        case Parsed(v) => v
        case SyntaxError(_) => ErrorResult(BadJsonMessage)
  }

  /** A 4xx/5xx reply `{"error": message}`. */
  function ErrorResponse(message: string, status: int): Response {
    Response(JsonBody(Obj(map["error" := Str(message)])), status)
  }

  const ServerErrorPrefix := "Server error: "

  /** The three `except` clauses of the route, tried in order. */
  function Handle(e: PyError): (r: Response)
    ensures r.status == (if e.JSONDecodeError? || e.ValueError? then 400 else 500)
    ensures e.ValueError? ==> r == ErrorResponse(e.message, 400)
    ensures !e.JSONDecodeError? && !e.ValueError? ==> r == ErrorResponse(ServerErrorPrefix + e.Message(), 500)
  {
    match e
    case JSONDecodeError(_) => ErrorResponse("Invalid JSON format", 400)
    case ValueError(message) => ErrorResponse(message, 400)
    case _ => ErrorResponse(ServerErrorPrefix + e.Message(), 500)
  }

  /** The route's checks, in order, on the outcome of `request.get_json()`:
      either a response that ends the request, or the ingredients and the
      recipe count that `get_recipes` is called with. */
  function Validate(request: Result<Value, PyError>): (r: Result<(Value, int), Response>)
    ensures r.Success? ==> Truthy(r.value.0) && r.value.1 >= 1
    ensures r.Success? ==>
              (&& request.Success? && request.value.Obj?
               && "ingredients" in request.value.fields && "num_recipes" in request.value.fields
               && r.value.0 == request.value.fields["ingredients"]
               && ToInt(request.value.fields["num_recipes"]) == Success(r.value.1))
    ensures r.Failure? ==> r.error.status == 400 || r.error.status == 500
    ensures request.Success? && !Truthy(request.value) ==>
              r == Failure(ErrorResponse("No data provided", 400))
    ensures request.Success? && Truthy(request.value)
            && (|| Contains(request.value, "ingredients") == Success(false)
                || (&& Contains(request.value, "ingredients") == Success(true)
                    && Contains(request.value, "num_recipes") == Success(false))) ==>
              r == Failure(ErrorResponse("Missing required parameters", 400))
  {
    match request
    case Failure(e) => Failure(Handle(e))
    case Success(data) =>
      if !Truthy(data) then Failure(ErrorResponse("No data provided", 400))
      else
        match Contains(data, "ingredients")
        case Failure(e) => Failure(Handle(e))
        case Success(hasIngredients) =>
          if !hasIngredients then Failure(ErrorResponse("Missing required parameters", 400))
          else
            match Contains(data, "num_recipes")
            case Failure(e) => Failure(Handle(e))
            case Success(hasCount) =>
              if !hasCount then Failure(ErrorResponse("Missing required parameters", 400))
              else
                match Index(data, "ingredients")
                case Failure(e) => Failure(Handle(e))
                case Success(ingredients) =>
                  match Index(data, "num_recipes")
                  case Failure(e) => Failure(Handle(e))
                  case Success(count) =>
                    match ToInt(count)
                    case Failure(e) => Failure(Handle(e))
                    case Success(n) =>
                      if !Truthy(ingredients) then
                        Failure(ErrorResponse("Ingredients list cannot be empty", 400))
                      else if n < 1 then
                        Failure(ErrorResponse("Number of recipes must be at least 1", 400))
                      else Success((ingredients, n))
  }

  /** `generate_recipes`: an OPTIONS preflight is answered 204 with an empty
      body before anything is read; otherwise a failed check is the answer,
      and only a request that passes every check reaches the model, whose
      result is returned with 200 as it is. */
  function GenerateRecipes(verb: Method, request: Result<Value, PyError>,
                           llm: (Value, int) -> LlmReply, loads: string -> Parse): (r: Response)
    ensures verb == OPTIONS ==> r == Response(Empty, 204)
    ensures verb != OPTIONS ==>
              match Validate(request)
              case Failure(response) => r == response && r.status != 200
              case Success((ingredients, n)) =>
                r == Response(JsonBody(GetRecipes(ingredients, n, llm, loads)), 200)
                && Truthy(ingredients) && n >= 1
  {
    if verb == OPTIONS then Response(Empty, 204)
    else
      match Validate(request)
      case Failure(response) => response
      case Success((ingredients, n)) => Response(JsonBody(GetRecipes(ingredients, n, llm, loads)), 200)
  }

  /** `health_check`: always 200, reporting itself healthy. */
  function HealthCheck(): (r: Response)
    ensures r.status == 200
    ensures r.body.JsonBody? && r.body.value.Obj? && "status" in r.body.value.fields
            && r.body.value.fields["status"] == Str("healthy")
  {
    Response(JsonBody(Obj(map["status" := Str("healthy"), "message" := Str("Server is running")])), 200)
  }

  /** A dict body is accepted exactly when it names both parameters, its
      count converts with `int()` to at least 1 and its ingredients are
      truthy. */
  lemma AcceptedDict(fields: map<string, Value>)
    ensures Validate(Success(Obj(fields))).Success? <==>
              && "ingredients" in fields && "num_recipes" in fields
              && ToInt(fields["num_recipes"]).Success? && ToInt(fields["num_recipes"]).value >= 1
              && Truthy(fields["ingredients"])
  {
    if "ingredients" in fields {
      assert "ingredients" in fields.Keys;
      assert fields != map[];
    }
  }

  /** The checks of a dict body in their order, each with its answer. */
  lemma DictValidationOrder(fields: map<string, Value>)
    ensures fields == map[] ==>
              Validate(Success(Obj(fields))) == Failure(ErrorResponse("No data provided", 400))
    ensures fields != map[] && ("ingredients" !in fields || "num_recipes" !in fields) ==>
              Validate(Success(Obj(fields))) == Failure(ErrorResponse("Missing required parameters", 400))
    ensures "ingredients" in fields && "num_recipes" in fields ==>
              match ToInt(fields["num_recipes"])
              case Failure(e) =>
                && Validate(Success(Obj(fields))) == Failure(Handle(e))
                && (fields["num_recipes"].Str? ==>
                      Validate(Success(Obj(fields))) == Failure(ErrorResponse(e.message, 400)))
              case Success(n) =>
                if !Truthy(fields["ingredients"]) then
                  Validate(Success(Obj(fields))) == Failure(ErrorResponse("Ingredients list cannot be empty", 400))
                else if n < 1 then
                  Validate(Success(Obj(fields))) == Failure(ErrorResponse("Number of recipes must be at least 1", 400))
                else Validate(Success(Obj(fields))) == Success((fields["ingredients"], n))
  {
    if "ingredients" in fields {
      assert "ingredients" in fields.Keys;
    }
  }

  /** Every answer of the route is 200, 204, 400 or 500. */
  lemma StatusCodes(verb: Method, request: Result<Value, PyError>,
                    llm: (Value, int) -> LlmReply, loads: string -> Parse)
    ensures GenerateRecipes(verb, request, llm, loads).status in {200, 204, 400, 500}
  {
  }

  /** A `JSONDecodeError` raised while reading the request body is reported
      by its handler: 400 with a fixed message. */
  lemma UnreadableBody(message: string)
    ensures GenerateRecipes(POST, Failure(JSONDecodeError(message)), (v, n) => Raised(""), t => Parsed(Null))
            == ErrorResponse("Invalid JSON format", 400)
  {
  }

  /** Any other exception raised while reading the request body (such as
      the `BadRequest` Flask raises for a body it cannot decode) falls
      through to the last handler: 500, with its message after
      `ServerErrorPrefix`. */
  lemma BodyReadFailure(e: PyError, llm: (Value, int) -> LlmReply, loads: string -> Parse)
    requires !e.JSONDecodeError? && !e.ValueError?
    ensures GenerateRecipes(POST, Failure(e), llm, loads) == ErrorResponse(ServerErrorPrefix + e.Message(), 500)
  {
  }

  /** `int()` runs before the emptiness check: a body with empty ingredients
      and a word for a count fails on the count, quoting it. */
  lemma CountIsConvertedFirst()
    ensures Validate(Success(Obj(map["ingredients" := Str(""), "num_recipes" := Str("two")])))
            == Failure(ErrorResponse(InvalidLiteralPrefix + "'two'", 400))
  {
    var fields := map["ingredients" := Str(""), "num_recipes" := Str("two")];
    var data := Obj(fields);
    assert Truthy(data) by { assert "ingredients" in fields.Keys; }
    assert Contains(data, "ingredients") == Success(true);
    assert Contains(data, "num_recipes") == Success(true);
    assert Index(data, "num_recipes") == Success(Str("two"));
    var message := InvalidLiteralPrefix + "'two'";
    WordIsNotInt();
    assert Handle(ValueError(message)) == ErrorResponse(message, 400);
  }

  /** A count sent as text with spaces around it is accepted, as `int()`
      strips them. */
  lemma SpacedCountAccepted()
    ensures Validate(Success(Obj(map["ingredients" := Str("egg"), "num_recipes" := Str(" 2 ")])))
            == Success((Str("egg"), 2))
  {
    var fields := map["ingredients" := Str("egg"), "num_recipes" := Str(" 2 ")];
    var data := Obj(fields);
    assert Truthy(data) by { assert "ingredients" in fields.Keys; }
    assert Contains(data, "ingredients") == Success(true);
    assert Contains(data, "num_recipes") == Success(true);
    assert Index(data, "ingredients") == Success(Str("egg"));
    assert Index(data, "num_recipes") == Success(Str(" 2 "));
    SpacedNumberIsInt();
  }

  /** A list body naming both parameters passes the `in` checks, and then
      subscripting it with a string raises a TypeError, answered with 500. */
  lemma ListBodyIsServerError()
    ensures Validate(Success(Arr([Str("ingredients"), Str("num_recipes")])))
            == Failure(ErrorResponse(ServerErrorPrefix + "list indices must be integers or slices, not str", 500))
  {
    var items := [Str("ingredients"), Str("num_recipes")];
    var data := Arr(items);
    assert Contains(data, "ingredients") == Success(true) by { assert items[0] == Str("ingredients"); }
    assert Contains(data, "num_recipes") == Success(true) by { assert items[1] == Str("num_recipes"); }
    var e := TypeError("list indices must be integers or slices, not str");
    assert Index(data, "ingredients") == Failure(e);
    assert Truthy(data);
    assert Validate(Success(data)) == Failure(Handle(e));
    assert Handle(e) == ErrorResponse(ServerErrorPrefix + e.Message(), 500);
    assert e.Message() == "list indices must be integers or slices, not str";
  }

  /** An answer the pattern does not match, or whose match the JSON parser
      refuses, gives an empty recipe list and the reason; so does an
      exception while asking the model, with its message. */
  lemma GetRecipesErrors(ingredients: Value, n: int, llm: (Value, int) -> LlmReply, loads: string -> Parse)
    ensures var r := GetRecipes(ingredients, n, llm, loads);
            r.Obj? && "recipes" in r.fields && r.fields["recipes"] == Arr([]) && "error" in r.fields
            <== || llm(ingredients, n).Raised?
                || (llm(ingredients, n).Answered? && ExtractJson(llm(ingredients, n).text).None?)
                || (llm(ingredients, n).Answered? && ExtractJson(llm(ingredients, n).text).Some?
                    && loads(ExtractJson(llm(ingredients, n).text).value).SyntaxError?)
  {
  }
}
