# MyChef in Dafny

MyChef is a recipe generator with two halves. A React Native client keeps a
list of ingredients on its home screen. A Flask server receives that list
and asks a language model for recipes. This project models:

- the client's ingredient list manager and its fetch of recipes
  (`src/screens/homescreen.js`);
- the server's request validation, its extraction of a JSON object from the
  model's answer, and its health route (`main.py`).

It proves what each of them promises, and how they fit together.

Modules, one per file:

- `wrappers.dfy` (`Wrappers`): `Option` and `Result`.
- `json.dfy` (`Json`): the JSON values both halves exchange, and the outcome
  of parsing text as JSON.
- `text.dfy` (`Text`): the string operations the client relies on.
  - `String.prototype.trim`, with the exact ECMAScript whitespace set.
  - ASCII lower-casing.
  - `Array.prototype.join`, and cutting at `", "`.
  - Decimal rendering of integers.
- `ingredients.dfy` (`IngredientList`): the rules of the list as pure
  functions.
  - `Normalize` is trim then lower-case.
  - `TryAdd` runs the three checks in their order and appends.
  - `Remove` is the `filter`.
  - `WellFormed` is the list invariant: at most 100 entries, no duplicates,
    and every entry non-empty, trimmed and lower-case.
- `homescreen.dfy` (`HomeScreen`): the screen.
  - The class `Screen` holds the four state fields `ingredients`,
    `inputText`, `recipes` and `loading`.
  - Its handlers are methods, proved against `TryAdd`, `Remove` and
    `RunFetch`.
  - The network is an oracle from request to reply. `FetchRecipes` returns
    the requests it issued and the alert it showed.
- `python.dfy` (`Python`): the Python built-ins the validation chain applies
  to a parsed body, each with the exception it raises.
  - Truthiness, `in` and subscripting with a string.
  - `int()` on strings: surrounding whitespace stripped (ASCII whitespace
    and the non-ASCII spaces `str.isspace` accepts), a sign, and digits with
    single underscores between them.
  - The `repr` that `int()` quotes in its error message, cut at 200
    characters.
- `server.dfy` (`RecipeServer`): the server's routes.
  - `Search` and `ExtractJson` are the regular expression.
  - `GetRecipes` is `get_recipes`, with the model call and `json.loads` as
    oracles.
  - `Validate` and `GenerateRecipes` are `generate_recipes`, and
    `HealthCheck` is `health_check`.
- `endtoend.dfy` (`EndToEnd`): the client's fetch run against the server's
  routes.

## Model

| member | source | states |
|---|---|---|
| Text.Trim | src/screens/homescreen.js:26 | `trim()`: the result has no surrounding whitespace. It is empty exactly when the input is all whitespace. It is the input with its leading and trailing whitespace runs cut off. |
| Text.ToLower | src/screens/homescreen.js:26 | `toLowerCase()` keeps the length, lowers each letter in place, and leaves no upper-case letter. |
| Text.SplitJoin | src/screens/homescreen.js:74 | `ingredients.join(', ')` loses nothing for a non-empty list of comma-free entries: cutting at ", " gives the list back. |
| Text.JoinAmbiguous | src/screens/homescreen.js:74 | The joined text is ambiguous once an entry contains ", ": `["salt, pepper"]` and `["salt", "pepper"]` send the same text. |
| Text.JoinNonEmpty | src/screens/homescreen.js:74 | Joining a list whose first entry is non-empty gives a non-empty string. |
| Text.NatToStringRoundTrip | src/screens/homescreen.js:33 | The decimal digits an integer is rendered with, as in `${MAX_INGREDIENTS}`, read back as that integer. |
| IngredientList.Normalize | src/screens/homescreen.js:26-30 | `inputText.trim().toLowerCase()` gives the empty string exactly for all-whitespace input, and is never longer than the typed text. Otherwise the result is a valid entry: non-empty, trimmed, lower-case. |
| IngredientList.NormalizeIngredient | src/screens/homescreen.js:26 | A valid entry is its own normal form. |
| IngredientList.NormalizeIdempotent | src/screens/homescreen.js:26 | Normalising twice is normalising once. |
| IngredientList.TryAdd | src/screens/homescreen.js:25-44 | The three checks run in order, each as an iff. Blank input is "Invalid Input". Otherwise a list of 100 or more is "Maximum Ingredients", even when the entry is also a duplicate. Otherwise an entry already present is "Duplicate Ingredient". Otherwise the list becomes the old list plus the normalised entry at the end. |
| IngredientList.TryAddWellFormed | src/screens/homescreen.js:17-42 | A successful add keeps the list invariant: at most `MAX_INGREDIENTS` entries, no duplicates, every entry non-empty, trimmed and lower-case. |
| IngredientList.Remove | src/screens/homescreen.js:46-48 | The `filter` keeps exactly the entries other than the argument and never grows the list. A list without the argument comes back unchanged. |
| IngredientList.RemoveCounts | src/screens/homescreen.js:47 | Every other entry is kept as often as it occurred, and the removed value not at all. |
| IngredientList.RemoveWellFormed | src/screens/homescreen.js:46-48 | Removing keeps the list invariant. |
| IngredientList.RemoveAt | src/screens/homescreen.js:208-211 | On a list without duplicates, pressing the tag of entry k removes that entry alone and keeps the others in order. |
| IngredientList.AddEachDistinct | src/screens/homescreen.js:25-44 | Adding inputs one after another appends all their normal forms in order. The inputs must be non-blank, new, pairwise distinct once normalised, and within the cap. |
| IngredientList.ChickenTwice | src/screens/homescreen.js:37-40 | `"  Chicken "` typed after `"chicken"` is a duplicate. |
| IngredientList.SpacedChicken | src/screens/homescreen.js:26 | `"  Chicken "` normalises to `"chicken"`. |
| IngredientList.RetypedEntryIsDuplicate | src/screens/homescreen.js:37-40 | Typing back any entry exactly as shown is a duplicate while the list has room. |
| HomeScreen.RunFetch | src/screens/homescreen.js:50-110 | An empty list sends nothing. The health probe goes first, and is always the first request. The generation request for exactly this list goes second, and only after a 2xx probe. Recipes are loaded only when both requests were made. After a 2xx probe the result is the client's reading of the generation reply. An unreachable probe ends the fetch with its rejection message. |
| HomeScreen.UnhealthyServerIsNotAsked | src/screens/homescreen.js:61-64 | A non-2xx probe ends the fetch after one request. The user sees the connection message. |
| HomeScreen.LoadedExactly | src/screens/homescreen.js:81-97 | Recipes `rs` are loaded iff the list is non-empty, the probe is 2xx, and the generation reply is 2xx JSON with no truthy `error` and with `recipes` equal to the array `rs`. |
| HomeScreen.RequestCarriesList | src/screens/homescreen.js:66-77 | The generation body names every entry: when no entry contains a comma, its `ingredients` text cut at ", " gives the list back. Its `num_recipes` is always 3. |
| HomeScreen.ErrorFieldIsShown | src/screens/homescreen.js:89-106 | In a 2xx object reply of any status and text, a truthy `error` is thrown as its `String` text, and a string error as that string. The user reads it after "Failed to get recipes: ". The one exception is the probe's own message, which reads as the connection message. |
| HomeScreen.RecipesMustBeArray | src/screens/homescreen.js:93-95 | A 2xx object reply with no truthy `error` is refused with "Invalid recipe data format" exactly when its `recipes` is missing or not an array. |
| HomeScreen.StringRecipesRefused | src/screens/homescreen.js:93-95 | `{"recipes": "not-an-array"}` is refused with "Invalid recipe data format". |
| HomeScreen.ServerErrorIsShown | src/screens/homescreen.js:81-84 | A non-2xx generation reply, whatever its body, is thrown as "Server error: " and its text. The user reads that after "Failed to get recipes: ". |
| HomeScreen.GenerationResult | src/screens/homescreen.js:81-97 | The client's reading of the generation reply loads recipes exactly when the reply delivers them: 2xx JSON, an object with no truthy `error`, and an array `recipes`. Then it loads that array. Anything else is an error thrown. |
| HomeScreen.Truthy | src/screens/homescreen.js:89-93 | JavaScript truthiness: `undefined`, `null`, `false`, `0` and `""` are false, and nothing else is. |
| HomeScreen.Member | src/screens/homescreen.js:89-93 | `data.key` on a non-null value is defined exactly when `data` is an object holding the key, and then it is that field. |
| HomeScreen.JsString | src/screens/homescreen.js:90 | `new Error(v)` carries a string as it is. Any other truthy value except an array gives a non-empty message. An empty array gives an empty one. |
| HomeScreen.ErrorAlert | src/screens/homescreen.js:99-106 | The catch block's alert is titled "Error". It shows the connection message exactly when the thrown message is "Server is not responding". Otherwise it shows "Failed to get recipes: " and the message. |
| HomeScreen.FetchAlert | src/screens/homescreen.js:52-106 | A fetch shows an alert exactly when it loaded no recipes. An empty list gives "No Ingredients", and a thrown error its `ErrorAlert`. |
| HomeScreen.RejectionAlert | src/screens/homescreen.js:28-38 | The full-list alert names the cap in decimal: "You can only add up to 100 ingredients". |
| HomeScreen.RejectionAlertsDiffer | src/screens/homescreen.js:28-38 | The three rejections show three different alerts. |
| HomeScreen.SoupIsLoaded | src/screens/homescreen.js:86-97 | A reply holding one recipe loads that one recipe. |
| HomeScreen.Screen.constructor | src/screens/homescreen.js:20-23 | The screen starts with every field empty or false, and satisfies the invariant. |
| HomeScreen.Screen.ChangeText | src/screens/homescreen.js:183-188 | Typing replaces `inputText`. The input holds at most 30 characters. |
| HomeScreen.Screen.AddIngredient | src/screens/homescreen.js:25-44 | The list and the input change as `TryAdd` says: on success the entry is appended and the input cleared. On a rejection nothing changes and the matching alert is shown. The invariant is kept. |
| HomeScreen.Screen.RemoveIngredient | src/screens/homescreen.js:46-48 | The list becomes `Remove` of the old list. The invariant is kept. |
| HomeScreen.Screen.FetchRecipes | src/screens/homescreen.js:50-110 | The requests issued and the alert shown are those of `RunFetch`. `recipes` is replaced only when an array arrived, and by exactly that array. Any failure leaves it unchanged. `loading` is false on exit. |
| Python.PlainRepr | main.py:102 | `repr` of printable ASCII text without quotes or backslashes is that text in single quotes. |
| Python.WordIsNotInt | main.py:102 | `int("two")` raises a ValueError quoting `'two'`. |
| Python.ParseIntRoundTrip | main.py:102 | `int()` reads back every integer's decimal text. |
| Python.SpacedNumberIsInt | main.py:102 | `int(" 2 ")` strips the surrounding whitespace and gives 2. |
| Python.SeparatorIsNotStripped | main.py:102 | `int()` does not strip the ASCII separator U+001C, so `"\x1c2"` is refused. |
| Python.ToInt | main.py:102 | `int(v)` succeeds exactly on integers, booleans and strings holding an integer literal. An integer comes back as it is. A refused string raises a ValueError whose message starts with "invalid literal for int() with base 10: " and quotes at most 200 characters. Any other type raises a TypeError. |
| Python.Contains | main.py:98 | `key in v` works on dicts, lists and strings and raises a TypeError on anything else. On a dict it holds exactly when `v[key]` succeeds. On a list it holds exactly when the list has the string as an element. |
| Python.Index | main.py:101-102 | `v[key]` succeeds exactly on a dict holding the key, and gives that key's value. A dict without the key raises a KeyError, and any other type a TypeError. |
| Python.Truthy | main.py:95-105 | Python truthiness: `None`, `False`, `0`, `""`, `[]` and `{}` are false, and nothing else is. |
| RecipeServer.Search | main.py:65 | The pattern `\{[\s\S]*\}` matches iff some `{` precedes some `}`. The match starts at the first `{` and ends at the last `}`. |
| RecipeServer.SearchLeftmostLongest | main.py:65 | Every possible match lies within the one found. None starts earlier, and none starting at the same `{` ends later. |
| RecipeServer.ExtractJson | main.py:65-70 | `match.group(1)` exists iff a `{` precedes a `}`. It is the text from the first `{` to the last `}`, at least two characters long, and it starts with `{` and ends with `}`. |
| RecipeServer.GetRecipes | main.py:50-78 | A model exception gives `{"recipes": [], "error": str(e)}`. Otherwise no match gives "No valid JSON found in response". Otherwise a JSON parse failure gives "Invalid JSON format". Otherwise the result is the parsed value, as it is. |
| RecipeServer.GetRecipesErrors | main.py:64-78 | Each of the three failures yields an object with an empty `recipes` list and an `error` field: a model exception, an answer the pattern does not match, and a match the JSON parser refuses. |
| RecipeServer.ErrorResult | main.py:67-78 | An error result has exactly the keys `recipes`, an empty list, and `error`, the reason. |
| RecipeServer.Handle | main.py:116-124 | `JSONDecodeError` and `ValueError` are answered with 400, any other exception with 500. A `ValueError` is answered with its own message, any other exception with "Server error: " and its message. |
| RecipeServer.Validate | main.py:91-109 | A request passes only when its body is a dict holding both keys. Then its `ingredients` is truthy, its count converts with `int()` to at least 1, and both are handed on. Every failure is a 400 or 500 answer. Any falsy body, not only `{}`, is answered 400 "No data provided". A truthy body of any type that lacks a key, a list or a string included, is answered 400 "Missing required parameters". |
| RecipeServer.DictValidationOrder | main.py:95-109 | The checks in order, each with its answer: empty body "No data provided", then a missing key "Missing required parameters", then the `int()` exception's handler (for a string count, 400 with `int()`'s own message), then "Ingredients list cannot be empty", then "Number of recipes must be at least 1". |
| RecipeServer.AcceptedDict | main.py:95-109 | A dict body is accepted iff it holds both keys, its count converts to at least 1, and its ingredients are truthy. |
| RecipeServer.CountIsConvertedFirst | main.py:101-106 | `int()` runs before the emptiness check. Empty ingredients with a count of "two" are answered with the `int()` error. |
| RecipeServer.SpacedCountAccepted | main.py:102 | A count sent as the text " 2 " is accepted as 2. |
| RecipeServer.ListBodyIsServerError | main.py:98-124 | A list body naming both keys passes the `in` checks. Subscripting it then raises a TypeError, answered with 500. |
| RecipeServer.UnreadableBody | main.py:116-118 | A `JSONDecodeError` raised while reading the body is answered 400 "Invalid JSON format". |
| RecipeServer.BodyReadFailure | main.py:90-124 | Any other exception raised while reading the body, other than a `ValueError`, is answered 500 with "Server error: " and its message. |
| RecipeServer.GenerateRecipes | main.py:84-124 | The route accepts POST and OPTIONS. OPTIONS gets an empty 204 with no validation. Otherwise a failed check is the answer. `get_recipes` is called only when every check passed, and its result is returned with 200, as it is. |
| RecipeServer.StatusCodes | main.py:84-124 | The route answers only 200, 204, 400 or 500. |
| RecipeServer.HealthCheck | main.py:126-131 | Always 200, with `"status": "healthy"`. |
| EndToEnd.ClientRequestAccepted | src/screens/homescreen.js:73-76 | The body the client sends for any non-empty list it can hold passes every server check. The server then asks the model for the joined list and 3 recipes. |
| EndToEnd.HealthProbePasses | main.py:126-131 | The health route satisfies the client's `response.ok` probe. |
| EndToEnd.GenerationReply | main.py:111-114 | For any non-empty list the client can hold, the server answers the generation request with status 200 and a body carrying `get_recipes`' result. |
| EndToEnd.ClientReadsErrorResult | src/screens/homescreen.js:86-97 | The client turns an error result of `get_recipes` into its message thrown. An empty message instead loads the empty list. |
| EndToEnd.ClientReadsRecipes | src/screens/homescreen.js:86-97 | The client loads exactly the `recipes` array of a reply that has no `error` field. |
| EndToEnd.FetchAgainstServer | src/screens/homescreen.js:59-97 | Against the server, a fetch sends the probe and then the generation request. It ends with what the client makes of a 200 reply carrying `get_recipes`' result. |
| EndToEnd.ModelFailureIsShown | main.py:76-78 | A model exception with a non-empty message ends the fetch with that message thrown. The user reads it after "Failed to get recipes: ", unless the message is "Server is not responding", which reads as the connection message. |
| EndToEnd.SilentEmptyFailure | main.py:76-78 | A model exception whose message is empty leads the client to load the empty list, with no alert. |
| EndToEnd.NoJsonIsShown | main.py:65-67 | A model answer the pattern does not match reaches the user as "No valid JSON found in response". |
| EndToEnd.RecipesArrive | main.py:69-71 | When the extracted JSON parses to `{"recipes": rs}`, the screen loads exactly `rs`. |
| EndToEnd.TruthinessDiffers | main.py:105 | The two ends disagree on truthiness exactly for the empty array and the empty object. |
| EndToEnd.MemberMatchesIndex | main.py:101 | On an object, the client's `data.key` and the server's `data[key]` find the same fields with the same values. |

`get_recipes` puts `str(e)` into its error result. That text is empty for an
exception raised without a message. The JavaScript client reads an empty
`error` as false, so it shows the empty recipe list with no alert
(`EndToEnd.SilentEmptyFailure`). Every other error result carries a
non-empty message.

## Left out

- Unicode case mapping: `toLowerCase` is modelled on ASCII letters only. Trimming uses the full ECMAScript whitespace set.
- The JavaScript engine's message for reading `error` of `null` is a stand-in constant (`NullAccessMessage`); the real text differs between engines.
- Python `repr` is modelled for quotes, backslashes and ASCII control characters. Non-ASCII escapes, non-ASCII digits in `int()` and its 4300-digit limit are not modelled.
- `request.get_json()` is a parameter: the model takes its outcome, a value or the exception it raised. With Flask and Werkzeug, a body that does not decode raises `BadRequest`, and a body sent without a JSON content type raises `UnsupportedMediaType`. Neither is a `JSONDecodeError` or a `ValueError`, so both reach the last handler and are answered 500 (`RecipeServer.BodyReadFailure`). The 400 answer of `RecipeServer.UnreadableBody` is for a `JSONDecodeError` itself.
- JSON numbers are integers: floats, and `int()` of a float, are not modelled.
- JSON text: serialising and parsing (`JSON.stringify`, `response.text()`, `response.json()`, `request.get_json()`, `json.loads`) are oracles or parameters. The end-to-end network carries values unchanged.
- `json.loads` raising something other than `JSONDecodeError` (a RecursionError on deep nesting) is not modelled; it would reach the outer handler of `get_recipes`.
- The network, `Alert.alert`, `console.*`, `print` and logging are I/O. A handler returns the requests it issued and the alert it showed.
- Async behaviour and re-entrancy: each handler runs atomically, so the moment `loading` is true is not observable. The button being disabled while `loading` is the precondition `Valid()`.
- The language model call (`OllamaLLM`, `ChatPromptTemplate`, the prompt template) is an oracle from the ingredients and count to an answer or an exception message.
- Flask routing, CORS, `after_request` headers and `app.run` are server plumbing. A route is a function from method and body to a response.
- `src/screens/RecipeDetailScreen.js`, `RecipeCard` and the layout are rendering. The input's `maxLength={30}` is the precondition of `ChangeText`.
- HomeScreen.SoupIsLoaded: the recipe is a literal without the `nutrition` and `tips` fields the prompt asks for. `fetchRecipes` does not look inside a recipe; `RecipeCard`, which does (and would fail on a recipe without `nutrition`), is rendering and is left out.
