# OpenAI chat-completion provider, modelled in Dafny

This project models `OpenAILLMProvider`, the provider that the CitySnap backend's LLM gateway
uses to reach OpenAI's Chat Completions API, together with its helper `_normalize_messages`.
The provider does three things, and the model has each of them:

- **Message normalization.** `_normalize_messages` walks the message list. It stops at the
  first element that is not a dict, or whose `role` or `content` is missing, not a string, or
  only whitespace. Otherwise it returns one `{role, content}` dict per element, in order,
  with the values copied untrimmed. This is the method `NormalizeMessages`, a loop proved
  equal to the function `Normalized`. Lemmas about `Normalized` state its properties.
- **Configuration.** The constructor rejects an API key that is empty or only whitespace.
  It stores the trimmed key. It stores the base URL with its trailing `/` removed, or the
  default URL when none is given or it is empty. It stores the model, or the default model
  when none is given or it is empty. This is the function `NewConfig`.
- **One request and its reply.** `generate` normalizes the messages before anything else. It
  then builds the JSON body `{model, messages, response_format: {type: "json_object"}}` and
  the bearer header, and posts once to `{base_url}/chat/completions`. From the reply it
  returns the value at `choices[0].message.content`. Every failure raises `LLMProviderError`.
  In the model the HTTP client's report is a parameter, `Transport`: a status with a body
  that decoded or failed to decode, or a transport error. `Generate` returns the reply and
  the request it sent. It returns `None` for the request when normalization fails, because
  then nothing is sent.

Modules:

- `Wrappers` (`wrappers.dfy`): `Option` and `Result`. `Failure(e)` stands for a raised
  exception.
- `Json` (`json.dfy`): decoded JSON values, `dict.get`, and Python's subscript `v[k]`.
- `Text` (`text.dfy`): `str.strip()`, using the characters Python's `str.isspace()` accepts,
  and `str.rstrip("/")`.
- `LlmProviders` (`llm_providers.dfy`): the provider.

Every message failure raises `LLMProviderError` (tags `NotASequence`, `NotAMapping`,
`MissingRole` and `MissingContent`), the same exception the HTTP failures raise. An empty key
raises `ValueError` (tag `EmptyApiKey`).

Some edge cases come straight from the code:

- A `str` passes `isinstance(messages, Sequence)`. It is iterated one character at a time,
  so `""` normalizes to `[]`, and any other string fails at index 0 as "not a mapping"
  (`StringMessages`).
- A dict passes the check only if `role` and `content` are non-blank strings; any other
  keys and values it holds do not matter.
- `role` and `content` are only checked with `strip()`. They are returned untrimmed.
- A model given as whitespace only is kept. Only `None` and `""` turn into the default.
- A base URL made only of slashes, such as `"///"`, is stored as the empty string.
- The reply is whatever value sits at `choices[0].message.content`, string or not. Like
  Python, the lookup fails if `choices` is a string or an object.

## Model

| member | source | states |
|---|---|---|
| `Json.Get` | city-snap-backend/src/citysnap/app/services/llm_providers.py:31-32 | `dict.get` gives a value exactly when the key is present, and it is that key's value |
| `Json.Subscript` | city-snap-backend/src/citysnap/app/services/llm_providers.py:92 | a subscript on an object gives a value exactly when the key is present, and it is that key's value; on a list, exactly when the index is in range, giving that element (a negative index counting from the end); on a string, exactly when the index is in range, giving the string of that one character (a negative index counting from the end); every other combination raises |
| `Text.Strip` | city-snap-backend/src/citysnap/app/services/llm_providers.py:33 | `strip()` returns an empty string exactly when its input is all whitespace; a non-empty result neither starts nor ends with whitespace |
| `Text.StripKeepsInner` | city-snap-backend/src/citysnap/app/services/llm_providers.py:56 | the result of `strip()` is a piece of the input with only whitespace before and after it |
| `Text.TrimStart` | city-snap-backend/src/citysnap/app/services/llm_providers.py:56 | the leading-whitespace half of `strip()`: a suffix of the input, only whitespace removed, and it does not start with whitespace |
| `Text.TrimEnd` | city-snap-backend/src/citysnap/app/services/llm_providers.py:56 | the trailing-whitespace half of `strip()`: a prefix of the input, only whitespace removed, and it does not end with whitespace |
| `Text.TrimEndChar` | city-snap-backend/src/citysnap/app/services/llm_providers.py:57 | `rstrip("/")` gives a prefix of its input; everything it removes is `/`; the result does not end with `/` |
| `LlmProviders.Elements` | city-snap-backend/src/citysnap/app/services/llm_providers.py:23-27 | a list is iterated element by element and a `str` one character at a time; every other value is not a Sequence |
| `LlmProviders.Check` | city-snap-backend/src/citysnap/app/services/llm_providers.py:28-38 | one element passes the loop body exactly when it is a dict whose `role` and `content` are strings that are not all whitespace |
| `LlmProviders.NormalizedSucceedsIff` | city-snap-backend/src/citysnap/app/services/llm_providers.py:26-39 | normalization succeeds if and only if every element is valid |
| `LlmProviders.NormalizedContents` | city-snap-backend/src/citysnap/app/services/llm_providers.py:26-39 | on success the output has the input's length, and message `i` holds element `i`'s `role` and `content` unchanged and untrimmed |
| `LlmProviders.NormalizedFailsAtFirst` | city-snap-backend/src/citysnap/app/services/llm_providers.py:27-36 | on failure the error names an index in range whose element is invalid, and every earlier element is valid; the element is checked first for being a dict, then for `role`, then for `content`, so one bad in both fields is a role failure |
| `LlmProviders.NormalizedDropsOtherKeys` | city-snap-backend/src/citysnap/app/services/llm_providers.py:38 | every dict built from a normalized message has exactly the keys `role` and `content`, holding the input element's values; other keys are dropped |
| `LlmProviders.NormalizeMessages` | city-snap-backend/src/citysnap/app/services/llm_providers.py:22-39 | the loop over the elements, with its early exits, returns exactly `Normalized(messages)` |
| `LlmProviders.StringMessages` | city-snap-backend/src/citysnap/app/services/llm_providers.py:23-29 | a string input normalizes to the empty list when it is empty, and otherwise fails at index 0 as not a mapping |
| `LlmProviders.OrDefault` | city-snap-backend/src/citysnap/app/services/llm_providers.py:57-58 | `value or default` keeps a non-empty given string and falls back to the default for `None` and `""` |
| `LlmProviders.NewConfig` | city-snap-backend/src/citysnap/app/services/llm_providers.py:45-59 | construction fails exactly when the key is all whitespace (or empty); otherwise the stored key is the trimmed key, non-empty with no outer whitespace; the stored base URL is the chosen URL minus trailing `/` only, and does not end with `/`; the stored model is the given one or the default, and is non-empty |
| `LlmProviders.DefaultsApplied` | city-snap-backend/src/citysnap/app/services/llm_providers.py:57-58 | with no base URL and no model the provider uses `https://api.openai.com/v1` and `gpt-4.1-mini` |
| `LlmProviders.MessageJson` | city-snap-backend/src/citysnap/app/services/llm_providers.py:38 | the dict built for a message has exactly the keys `role` and `content`, holding its two strings |
| `LlmProviders.BuildPayload` | city-snap-backend/src/citysnap/app/services/llm_providers.py:62-67 | the body has exactly the keys `model`, `messages` and `response_format`, and `response_format` is `{"type": "json_object"}` whatever the input |
| `LlmProviders.MessagesRoundTrip` | city-snap-backend/src/citysnap/app/services/llm_providers.py:64 | reading the JSON message list back gives the normalized messages, in order |
| `LlmProviders.PayloadRoundTrip` | city-snap-backend/src/citysnap/app/services/llm_providers.py:62-67 | reading the body back gives the configured model and exactly the normalized messages |
| `LlmProviders.Bearer` | city-snap-backend/src/citysnap/app/services/llm_providers.py:70 | the `Authorization` value is `Bearer ` followed by the stored key |
| `LlmProviders.RequestShape` | city-snap-backend/src/citysnap/app/services/llm_providers.py:69-76 | the POST goes to the stored base URL followed by `/chat/completions` with a single `/` at the join; its headers are exactly `Authorization: Bearer ` plus the trimmed key and `Content-Type: application/json`; its body reads back as the stored model and the messages |
| `LlmProviders.ExtractReply` | city-snap-backend/src/citysnap/app/services/llm_providers.py:91-94 | the reply is returned exactly when `choices` is a non-empty list whose first element has an object `message` with a `content` key; it is that value, of whatever type; otherwise the error carries the whole decoded body |
| `LlmProviders.ReceiveOutcomes` | city-snap-backend/src/citysnap/app/services/llm_providers.py:74-94 | a transport error, a non-2xx status and an unparsable body each give their own provider error; a reply is returned exactly when the status is 2xx, the body decoded, and `choices[0].message.content` exists, and it is that value |
| `LlmProviders.Generate` | city-snap-backend/src/citysnap/app/services/llm_providers.py:61-94 | a normalization failure is raised with nothing sent; otherwise exactly one request is sent, with the configured model, the normalized messages and the JSON-object response format, and the reply is what the transport outcome gives |
| `LlmProviders.ExampleExchanges` | city-snap-backend/src/citysnap/app/services/llm_providers.py:61-94 | `[{"role": "user", "content": "hi"}]` normalizes to one message; a 200 reply `{"choices":[{"message":{"content":"hello"}}]}` gives `"hello"`; a 401 gives a status error; `{"choices":[]}` gives an error carrying that body |

## Left out

- The HTTP exchange: creating `httpx.AsyncClient`, the POST, `raise_for_status`, and the
  `async`/`await` structure. Their outcome is the input `Transport`. As in httpx, any status
  outside 200-299 counts as a status error.
- Decoding bytes to JSON (`response.json()`). This is a library call. The model starts from
  `Body`, which holds a decoded value or marks the body as not JSON.
- URL joining. httpx joins the base URL and the relative path `/chat/completions`; the
  model concatenates the two strings, which agrees with httpx only for a base URL that is a
  plain path URL, without a query or a fragment.
- Serializing the request body to bytes. The body is the JSON value `BuildPayload` returns.
- The exact text of the exception messages. Errors are tags holding the index, the status
  or the decoded body.
- The `timeout` argument, a float that the provider only stores and passes on, and the
  logger, which this file never uses.
- Python objects in general. The messages argument is a JSON-like value, and a dict in it
  has string keys only. A `tuple` behaves like a list. A `Mapping` that is not a `dict` is
  not representable.
- JSON numbers are integers. Numbers play no part in any check, and a reply whose content
  is a number is returned unchanged whatever its value.
