# python-spark-transformation, modelled in Dafny

The component runs a Python transformation on a Spark cluster managed by Data Mechanics.
It reads the transformation as a tree: Blocks hold Codes, and Codes hold script lines. It packages
that tree into one Python script and stores the script as a blob named after the application.
It builds a signed link to the blob and submits a job to the Data Mechanics API that points the
cluster at the link. This project models those steps and proves what they guarantee.

The modules follow the source:

- `Wrappers` holds `Option` and `Result`.
- `Php` models the PHP values the component reads and returns. These are decoded JSON and
  configuration arrays, with PHP truthiness, string-key lookup and the failures PHP raises.
- `Transformation` models `Code` and `Block`. They are immutable value objects, so they are
  datatypes. Their constructors read a raw PHP array and fail with a type error on the inputs
  strict types reject.
- `ScriptPackaging` models PHP's `implode` and the text `packageScript` produces. The lemmas
  cover ordering, separators and length.
- `Retry` models the retry decider both clients install. It also models how Guzzle's retry
  middleware consults it, and how often one request is therefore sent.
- `DataMechanicsClient` models the API client:
  - the header-mapping closure, a loop over PSR-7 `withHeader` updates;
  - the handler stack, a class whose `Push` appends;
  - `initClient`;
  - the `?: []` normalisation and error wrapping of `sendRequest`;
  - `createApp`.
- `SparkApplication` models the application:
  - the script's file name and the link to it;
  - the job payload;
  - the class with its `appName`/`jobName` properties, which are unset until assigned;
  - `packageScript`, as nested loops proved against the packaging function;
  - `run`;
  - the end-to-end test scenario.

## Model

| member | source | states |
|---|---|---|
| Transformation.NewCode | src/Configuration/Transformation/Code.php:13-17 | a Code is built exactly when the data is an array with a string `name` and an array `script`; its name is `data['name']` and its lines are the values of `data['script']`, same count, same order; every failure is a type error |
| Transformation.CodeRoundTrip | src/Configuration/Transformation/Code.php:13-27 | building a Code from the configuration entry that holds its name and lines gives back the same Code, so `getName` and `getScripts` return the entry unchanged |
| Transformation.CodeReadsOnlyItsKeys | src/Configuration/Transformation/Code.php:9-17 | a Code depends only on the `name` and `script` entries of its data |
| Transformation.NewCodes | src/Configuration/Transformation/Block.php:16 | mapping the code entries succeeds exactly when every entry builds a Code; the i-th Code is built from the i-th entry, nothing filtered, same length |
| Transformation.NewCodesFirstError | src/Configuration/Transformation/Block.php:16 | when mapping fails, the error is that of the first malformed entry and every earlier entry was well formed |
| Transformation.NewBlock | src/Configuration/Transformation/Block.php:13-17 | a Block is built exactly when the data has a string `name` and an array `codes` whose entries all build Codes; its name is `data['name']` and its i-th Code comes from the i-th entry |
| Transformation.BlockRoundTrip | src/Configuration/Transformation/Block.php:13-30 | building a Block from the entry that holds its name and its Codes' entries gives back the same Block |
| ScriptPackaging.ImplodeLength | src/SparkApplication.php:108 | joining lines with "\n" adds one separator per neighbouring pair and nothing else: length is the sum of the lines plus `count - 1` (0 for no lines) |
| ScriptPackaging.ImplodePieceAt | src/SparkApplication.php:108 | every line appears unchanged at its position in the joined text, followed by exactly one "\n" unless it is the last line, which ends the text |
| ScriptPackaging.PackagedStep | src/SparkApplication.php:105-110 | packaging one more Block appends that Block's text to the script |
| ScriptPackaging.CodeTextsStep | src/SparkApplication.php:106-109 | packaging one more Code appends that Code's joined lines to its Block's text |
| ScriptPackaging.PackagedAppend | src/SparkApplication.php:105-110 | the script of two runs of Blocks is the script of the first followed by that of the second: no separator between Blocks |
| ScriptPackaging.PackagedIsAllCodes | src/SparkApplication.php:103-110 | the script is the joined lines of every Code, in Block order then Code order, with nothing between Codes or Blocks |
| ScriptPackaging.PackagedLength | src/SparkApplication.php:104-110 | the script's length is the sum of all line lengths plus `lineCount - 1` for each Code with lines |
| ScriptPackaging.PackagedLineAt | src/SparkApplication.php:104-110 | line j of the k-th Code appears unchanged right after the texts of the k Codes before it and the first j lines of its own Code |
| Retry.Decide | src/DataMechanicsClient.php:94-112 | no retry once `retries >= maxRetries`; below the cap, a retry exactly when a response has status at least 500 or an error was raised (the decider in src/SparkApplication.php:207-225 is the same code) |
| Retry.Sends | src/DataMechanicsClient.php:70 | following the decider, a request is sent at least once and at most `cap + 1` times; every send but the last ended with a 5xx status or an error; the last reached the cap or ended otherwise |
| Retry.SendsBounded | src/DataMechanicsClient.php:102-110 | with cap n, between 1 and n + 1 sends, and exactly one when the first send neither fails nor gets a 5xx |
| DataMechanicsClient.WithHeadersLast | src/DataMechanicsClient.php:77-79 | after the configured headers are applied, a header holds the value of the last one of its name (names compared case-insensitively) |
| DataMechanicsClient.WithHeadersUntouched | src/DataMechanicsClient.php:77-79 | a header no configured pair names keeps its value, and stays absent if it was absent |
| DataMechanicsClient.MapRequest | src/DataMechanicsClient.php:72-81 | the closure sets `User-Agent`, then `Content-type: application/json`, then each configured header in order |
| DataMechanicsClient.HandlerStack.Push | src/DataMechanicsClient.php:70-88 | pushing appends a middleware to the stack |
| DataMechanicsClient.InitClient | src/DataMechanicsClient.php:61-92 | the middleware `initClient` pushes are the retry middleware with the configured cap, then the header mapping with the configured agent and headers, then logging only when a logger is given; the base URI is `apiUrl` (the `initClient` in src/SparkApplication.php:174-205 is the same code with another log format) |
| DataMechanicsClient.PrepareThroughStack | src/DataMechanicsClient.php:70-88 | a request passing the retry, mapping and logging middleware leaves with its headers mapped and its method, target and body unchanged |
| DataMechanicsClient.ClientRequestHeaders | src/DataMechanicsClient.php:33-81 | every request the client sends carries the default user agent, `Content-type: application/json` and `X-API-Key` set to the token, replacing earlier values; its other headers, method, target and body are unchanged |
| DataMechanicsClient.ClientSendsAtMostTwice | src/DataMechanicsClient.php:23-36 | with the configured cap of 1 a request is sent at most twice, and once when the first response is not retried |
| DataMechanicsClient.SendRequest | src/DataMechanicsClient.php:44-53 | a success is always an array; a falsy body gives the empty array, any other array is returned as decoded, anything else is a type error; a malformed body raises the JSON error; a transport exception becomes a user error with the same message and code |
| DataMechanicsClient.DataMechanicsClient.constructor | src/DataMechanicsClient.php:28-42 | the client's base URI is the URL followed by "/api/", and its stack carries the default agent, the API key header and the cap of 1 |
| DataMechanicsClient.DataMechanicsClient.CreateApp | src/DataMechanicsClient.php:55-58 | the request is a POST to `apps` carrying the job data, and the headers the mapping closure sets are exactly the agent, content-type and API-key headers; the result is what `sendRequest` makes of the response |
| SparkApplication.FileName | src/SparkApplication.php:85-88 | the file name is the application name followed directly by "py" |
| SparkApplication.FileNameRoundTrip | src/SparkApplication.php:85-88 | the application name is recovered from the file name, so it depends on nothing else and distinct names give distinct files |
| SparkApplication.ScriptLink | src/SparkApplication.php:141-146 | the link is the primary URI, then the file name, then "?", then the signature, in that order |
| SparkApplication.LinkRoundTrip | src/SparkApplication.php:141-146 | a signature without "?" is recovered from the link, and so is the address before it |
| SparkApplication.JobPayload | src/SparkApplication.php:156-163 | the job data has exactly the keys `appName`, `jobName`, `configTemplateName`, `configOverrides` in this order; `configOverrides` holds only `mainApplicationFile`, the script link |
| SparkApplication.PayloadRoundTrip | src/SparkApplication.php:156-163 | the job data carries the whole submission: it reads back to the names, the template and the link |
| SparkApplication.SparkApplication.constructor | src/SparkApplication.php:57-72 | the URL, token and configuration template are stored and neither name is assigned |
| SparkApplication.SparkApplication.AppName | src/SparkApplication.php:80-83 | reading the application name before it is assigned raises the uninitialised-property error; otherwise it is the assigned name |
| SparkApplication.SparkApplication.JobName | src/SparkApplication.php:96-99 | reading the job name before it is assigned raises the uninitialised-property error; otherwise it is the assigned name |
| SparkApplication.SparkApplication.GetFileName | src/SparkApplication.php:85-88 | fails exactly when the application name is unset; otherwise the file name gives back the application name |
| SparkApplication.SparkApplication.SetAppName | src/SparkApplication.php:74-78 | the getter then returns the name just set, the job name is unchanged and the object itself is returned |
| SparkApplication.SparkApplication.SetJobName | src/SparkApplication.php:90-94 | the getter then returns the name just set, the application name is unchanged and the object itself is returned |
| SparkApplication.SparkApplication.PackageScript | src/SparkApplication.php:101-116 | the blob written is named by the file name and holds the packaged script of the Blocks; with no application name it raises instead |
| SparkApplication.SparkApplication.GenerateLinkToScript | src/SparkApplication.php:118-147 | fails exactly when the application name is unset; otherwise the link is the primary URI, the file name, "?" and the signature, and when the signature holds no "?" it splits back into the URI followed by the file name, and the signature |
| SparkApplication.SparkApplication.Run | src/SparkApplication.php:149-172 | without an application name, or then without a job name, nothing is sent and the uninitialised-property error is raised; otherwise one POST to `apps` with the mapped headers and the job payload built from both names, the template and the script link, and the result is what `sendRequest` makes of the response |
| SparkApplication.HelloWorldPackage | tests/phpunit/Transformation/TransformationTest.php:25-40 | the test's two lines are packaged with exactly one "\n" added between them |
| SparkApplication.TransformationTestScenario | tests/phpunit/Transformation/TransformationTest.php:41-46 | the test stores the script as `helloworld-<runId>py` and submits a job named after the run id whose link points at that file |

## Left out

- Blob storage is not modelled. Creating the blob client, writing the blob and generating the shared access signature are calls into the Azure SDK. The model returns the blob to write as a value and takes the container's primary URI and the signature as strings.
- The blob container name comes from the environment and is not modelled. The expiry date of the signature is taken from the clock and is not modelled either.
- The transport is not modelled: sending over HTTP, the delay between retries and the log output. `Retry.Sends` describes the number of sends a sequence of outcomes leads to.
- JSON is not modelled as text. A request body is the PHP value before `json_encode`, and a response is the value after `json_decode`. Encoding failures, floats and the depth limit of 512 are not modelled.
- Resolving `apps` against the base URI is Guzzle's behaviour and is not modelled.
- The handler a caller may pass in `options['handler']` is not modelled. No caller passes one.
- The configuration classes, the component's entry point and the configuration schema are not part of this model.
- `Config` has no `getBlocks()`, which `packageScript` calls. `SparkApplication.SparkApplication.PackageScript` therefore takes the Blocks as a parameter.
- Transformation.NewCode: it rejects a `script` entry that is not a string. PHP would store any array and let `implode` convert numbers and booleans to text. The model keeps script lines as strings.
- SparkApplication.SparkApplication.Run: it takes the retry cap, user agent and headers as a parameter. The `run` method as written calls `initClient` without the `backoffMaxTries`, `userAgent` and `headers` options that `initClient` reads. `run` is also declared `void` but returns the response data; the model returns that data. The unused `DEFAULT_BACKOFF_RETRIES = 10` of `SparkApplication` plays no part.
- SparkApplication.FileName: it follows the code, which appends "py" to the application name with no dot.
- Logging is not modelled. Only the format string each logging middleware is given is recorded.
- DataMechanicsClient.InitClient: it models only the middleware `initClient` pushes. Guzzle's `HandlerStack::create()` already holds its default middleware, which are not modelled. These are http_errors, allow_redirects, cookies and prepare_body. http_errors turns a final 4xx or 5xx response into the exception that `sendRequest` wraps.
- DataMechanicsClient.DataMechanicsClient.CreateApp: it states the headers the mapping closure sets. The headers Guzzle adds later are not modelled: Content-Length from prepare_body and Host from resolving the base URI. The trimming of header values by PSR-7 `withHeader` is not modelled either.
- Strings are sequences of characters, while PHP strings are bytes. Lengths such as those in `SparkApplication.FileName` and `ScriptPackaging.PackagedLength` count characters, where `strlen` counts bytes.
