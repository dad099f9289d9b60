# OpenAPI spec generator scripts, modelled in Dafny

This project models the two Python scripts of the OpenAPI spec generator.

- `openapi_generator.py` builds a one-endpoint OpenAPI 3.0.0 document from
  an endpoint title, description, path and method and a request and
  response example. Its parts are:
  - `json_to_schema_properties` infers the properties of an example dict;
  - `get_response_details` picks the response content type and a canned
    example;
  - a fixed test picks the request content type;
  - the `openapi_template` dict wraps all of it.
- `generate-openapi-spec.py` is an interactive builder. It:
  - asks for the API's title, version, description and base URL;
  - runs `add_auth_scheme` to register one security scheme, and requires it
    globally unless the answer is "n";
  - asks for one endpoint: its path, its method, and a request and a
    response example file;
  - infers a flat schema for each example with `detect_content_type` and
    `generate_schema`;
  - assembles the operation: summary, description, the 200 response, the
    path parameters, the request body and a per-operation security
    requirement when there is no global one;
  - stores the operation under `paths`.

Every dict the scripts build is a `Value` tree (`json_value.dfy`):
`Null`, `Bool`, `Int`, `Float` (a literal), `Str`, `List`, and `Obj`, an
ordered list of `Field` entries. Python's dict assignment is `Put`: a key
already present is overwritten in place, and a new key is appended, so key
order is kept as Python keeps it. The Python string methods the scripts
use are modelled in `text.dfy`: `lower`, `upper`, `title`, `strip`,
`replace`, `split`, `in` and `os.path.splitext`.

The interactive parts become inputs:
- the answers to `input()` are the fields of `InfoAnswers`, `AuthAnswers`
  and `EndpointAnswers`;
- the scope answers are a list of lines, and running out of them before
  `done` is the `EndOfInput` outcome, which is the script's EOFError;
- the files on disk are a map `files` from name to the value that reading
  the file gave. A name in the map is a file that exists. A read that
  failed is `Null`, which is the script's `None`. `read_example_file`
  parses JSON only for a name ending in lower-case `.json`; any other
  name, `user.JSON` included, maps to its text as a `Str`.

A whole run of the builder is `SpecBuilder.Build`. It ends in one of
three outcomes:
- `EndOfInput`;
- `MissingResponseFile`, the "Response example file is required" return;
- `Written(spec)`, the document that would be dumped to YAML.

Points where the code does something easy to misread, modelled as
written:
- `json_to_schema_properties` tests for `int` before `bool`. A Python bool
  is an int, so a boolean field is described as `integer`, and the
  `boolean` branch is never taken (`BoolInferredAsInteger`,
  `SchemaPropertiesNeverBoolean`). `generate_schema` tests `bool` first and
  does give `boolean` (`InferencersDisagreeOnBool`).
- In `openapi_generator.py` the method test compares against upper-case
  `GET` and `DELETE`. So a lower-case `get` with a request example gets a
  request body (`MethodTestIsCaseSensitive`). When no body applies, the
  operation holds an empty `requestBody` dict rather than none.
- `generate_schema` does not recurse: a nested dict becomes an `object`
  property with the dict as its example and no `properties`
  (`NestedObjectNotExpanded`).

## Model

| member | source | states |
|---|---|---|
| OpenApiGenerator.SchemaProperties | openapi-spec-generator-script/openapi_generator.py:6-36 | the properties dict never holds a key twice |
| OpenApiGenerator.JsonToSchemaProperties | openapi-spec-generator-script/openapi_generator.py:7-36 | the loop over the example's entries builds exactly the properties dict that `SchemaProperties` specifies |
| OpenApiGenerator.PropertySchemaDefined | openapi-spec-generator-script/openapi_generator.py:9-35 | a property is written for a key exactly when its value is not null; null values fall through every isinstance test |
| OpenApiGenerator.SchemaPropertiesKeys | openapi-spec-generator-script/openapi_generator.py:7-36 | for an example with distinct keys, the property keys are the example's non-null keys, in the example's order |
| OpenApiGenerator.SchemaPropertiesLookup | openapi-spec-generator-script/openapi_generator.py:8-35 | the property stored under each example key is the schema inferred for that key's own value |
| OpenApiGenerator.SchemaPropertiesNeverBoolean | openapi-spec-generator-script/openapi_generator.py:6-36 | no node anywhere in the inferred properties, nested ones included, is typed `boolean` |
| OpenApiGenerator.PropertySchemaNeverBoolean | openapi-spec-generator-script/openapi_generator.py:9-35 | the schema inferred for one value has only the types string, integer, number, array and object, at every depth |
| OpenApiGenerator.BoolInferredAsInteger | openapi-spec-generator-script/openapi_generator.py:11-16 | a boolean value gets the same schema as the integer 0 or 1: an `integer` node |
| OpenApiGenerator.ListFirstElementOnly | openapi-spec-generator-script/openapi_generator.py:17-29 | a list's schema depends only on its first element, and a list that does not start with a dict is described as an array of strings |
| OpenApiGenerator.ResponseDetails | openapi-spec-generator-script/openapi_generator.py:39-70 | the chosen content type is non-empty and lower case; the example is the canned one for that type when there is one, else the given example; without a hint the type always has a canned example |
| OpenApiGenerator.ResponseDetailsStable | openapi-spec-generator-script/openapi_generator.py:39-70 | feeding the chosen type and example back in chooses them again |
| OpenApiGenerator.HintOverridesExample | openapi-spec-generator-script/openapi_generator.py:49-57 | a hint naming an image, json, html or canned type decides the result regardless of the example |
| OpenApiGenerator.HintDecidesType | openapi-spec-generator-script/openapi_generator.py:49-57 | with any hint the content type does not depend on the example: it is `image/png`, `application/json`, `text/html` or the lower-cased hint |
| OpenApiGenerator.ImageHintExample | openapi-spec-generator-script/openapi_generator.py:50-52 | the hint `IMAGE/JPEG` gives `image/png` with the canned image URL, whatever the example: the hint is lower-cased before the test |
| OpenApiGenerator.ListExampleShownAsObject | openapi-spec-generator-script/openapi_generator.py:60-61 | without a hint, a list example is replaced by the canned `{"message": "Success"}` under `application/json` |
| OpenApiGenerator.HtmlExample | openapi-spec-generator-script/openapi_generator.py:62-65 | without a hint, the string `<html><body/></html>` is classified `text/html` |
| OpenApiGenerator.RequestContentType | openapi-spec-generator-script/openapi_generator.py:76-83 | a request type exists exactly for a dict or a string example; it is JSON exactly for a dict and HTML exactly for a string holding `<html` in any case |
| OpenApiGenerator.Operation | openapi-spec-generator-script/openapi_generator.py:108-153 | the operation carries the bearer requirement, the collection parameter exactly when the answer is "Yes", the request body entry and the responses |
| OpenApiGenerator.TemplateRequestBody | openapi-spec-generator-script/openapi_generator.py:121-134 | the request body is the empty dict exactly when the method test, the example or the content type rules it out; otherwise it is required and holds the example under its content type, with the inferred properties for a dict and a string schema for a string |
| OpenApiGenerator.MethodTestIsCaseSensitive | openapi-spec-generator-script/openapi_generator.py:134 | a non-empty dict example is sent with lower-case `get` but not with `GET` |
| OpenApiGenerator.Responses | openapi-spec-generator-script/openapi_generator.py:135-153 | the responses are 200, 400, 401, 403 and 500 in that order, and 200 is the success response |
| OpenApiGenerator.ResponsesShape | openapi-spec-generator-script/openapi_generator.py:135-148 | the 200 response holds the chosen example under the chosen content type, with schema type object, array or string by the example's kind |
| OpenApiGenerator.OpenApiTemplate | openapi-spec-generator-script/openapi_generator.py:86-157 | the document is OpenAPI 3.0.0 with the bearer scheme in its components and the one operation under the full endpoint path and the lower-cased method |
| OpenApiGenerator.TemplateEndpoint | openapi-spec-generator-script/openapi_generator.py:86-120 | the paths hold only the full endpoint path, which holds only the lower-cased method; the operation there carries the collection parameter and the bearer requirement, and `bearerAuth` is the only registered scheme |
| SpecSchema.DetectContentType | openapi-spec-generator-script/generate-openapi-spec.py:6-11 | the content type is one of the four listed types or `text/plain` |
| SpecSchema.DetectByExtension | openapi-spec-generator-script/generate-openapi-spec.py:21-23 | for a name `stem.e` whose final component has a character other than a dot before the last dot, the type is looked up by the lower-cased `.e`, with `text/plain` for anything unlisted |
| SpecSchema.DotFileIsPlainText | openapi-spec-generator-script/generate-openapi-spec.py:21-23 | a final path component made only of dots before its last dot has no extension, so the name is plain text |
| SpecSchema.DotJsonIsPlainText | openapi-spec-generator-script/generate-openapi-spec.py:22 | `.json` has no extension and is plain text |
| SpecSchema.DoubleDotJson | openapi-spec-generator-script/generate-openapi-spec.py:22 | `a..json` has the extension `.json` and is JSON |
| SpecSchema.NoDotIsPlainText | openapi-spec-generator-script/generate-openapi-spec.py:21-23 | a name without a dot is plain text |
| SpecSchema.UpperCaseJsonExtension | openapi-spec-generator-script/generate-openapi-spec.py:22 | the extension is lower-cased before the lookup: `user.JSON` is given the type `application/json` |
| SpecSchema.LastExtensionCounts | openapi-spec-generator-script/generate-openapi-spec.py:22 | only the last extension counts: `archive.tar.xml` is XML |
| SpecSchema.FieldType | openapi-spec-generator-script/generate-openapi-spec.py:48-58 | each kind of value gets its own type tag, bool before int, and null falls back to `string` |
| SpecSchema.TypeOf | openapi-spec-generator-script/generate-openapi-spec.py:48-58 | the isinstance chain computes `FieldType` |
| SpecSchema.FlatProperty | openapi-spec-generator-script/generate-openapi-spec.py:60-64 | the property has the value's type tag, the key with underscores as spaces in its description, and the value itself as its example |
| SpecSchema.FlatPropertyFormat | openapi-spec-generator-script/generate-openapi-spec.py:66-67 | the property has format `int64` exactly when the value is an integer and its key holds `id` in any case |
| SpecSchema.AddFlatProperty | openapi-spec-generator-script/generate-openapi-spec.py:60-67 | one turn of the loop stores the key's flat property, format included, overwriting an earlier entry for the same key |
| SpecSchema.GenerateSchema | openapi-spec-generator-script/generate-openapi-spec.py:35-69 | the method computes the flat schema, the loop filling the properties entry by entry |
| SpecSchema.StringSchema | openapi-spec-generator-script/generate-openapi-spec.py:37-40 | a string schema is described by the title-cased last part of the content type |
| SpecSchema.NonObjectSchema | openapi-spec-generator-script/generate-openapi-spec.py:36-40 | a non-JSON type or a non-dict example gives a string schema without properties |
| SpecSchema.FlatPropertiesKeys | openapi-spec-generator-script/generate-openapi-spec.py:47-64 | the schema's property keys are the example's keys, in order |
| SpecSchema.FlatPropertiesLookup | openapi-spec-generator-script/generate-openapi-spec.py:47-64 | each example key holds the flat property of its own value |
| SpecSchema.ObjectSchema | openapi-spec-generator-script/generate-openapi-spec.py:42-69 | a JSON dict example gives an `object` schema whose properties are those of its entries, key for key |
| SpecSchema.InferencersDisagreeOnBool | openapi-spec-generator-script/generate-openapi-spec.py:49-50 | for a boolean this script says `boolean` where `json_to_schema_properties` says `integer` |
| SpecSchema.NestedObjectNotExpanded | openapi-spec-generator-script/generate-openapi-spec.py:57-64 | a nested dict is an `object` property with the dict as example and no properties |
| SpecSchema.UserExample | openapi-spec-generator-script/generate-openapi-spec.py:47-67 | for `{"user_id": 42, "name": "Ada", "active": true}`, `user_id` gets format `int64`, `active` does not, and `user_id` is described as "The user id" |
| SpecAuth.AuthTypeOf | openapi-spec-generator-script/generate-openapi-spec.py:79-80 | a type is chosen exactly when the stripped, lower-cased answer is one of the four menu numbers |
| SpecAuth.MenuChoice | openapi-spec-generator-script/generate-openapi-spec.py:13-17 | "1" to "4" choose apiKey, http, oauth2 and openIdConnect |
| SpecAuth.NoneChoice | openapi-spec-generator-script/generate-openapi-spec.py:79-83 | an answer that strips and lower-cases to nothing or to `none` chooses no scheme |
| SpecAuth.AddScope | openapi-spec-generator-script/generate-openapi-spec.py:116-117 | the scope named before the first colon maps to the stripped text after it |
| SpecAuth.ReadScopes | openapi-spec-generator-script/generate-openapi-spec.py:111-117 | the loop reads exactly the scopes that `ScopesFrom` specifies, and None when the lines run out |
| SpecAuth.ScopesStopAtDone | openapi-spec-generator-script/generate-openapi-spec.py:112-114 | nothing after the first `done` line is read |
| SpecAuth.ScopesNeedDone | openapi-spec-generator-script/generate-openapi-spec.py:111-114 | without a `done` line the answers run out |
| SpecAuth.ScopesDistinct | openapi-spec-generator-script/generate-openapi-spec.py:115-117 | the scopes read never hold a name twice |
| SpecAuth.LaterScopeWins | openapi-spec-generator-script/generate-openapi-spec.py:115-117 | of two consecutive lines naming the same scope, the first has no effect on what is read |
| SpecAuth.KeptUntilRenamed | openapi-spec-generator-script/generate-openapi-spec.py:111-117 | a scope that no later line names keeps its description to the end of the loop |
| SpecAuth.LastNamingLineWins | openapi-spec-generator-script/generate-openapi-spec.py:111-117 | a scope named on several lines before `done` holds the description of the last of them, whatever lines lie between |
| SpecAuth.SchemeFor | openapi-spec-generator-script/generate-openapi-spec.py:90-117 | the scheme's `type` is the chosen type |
| SpecAuth.ApiKeyScheme | openapi-spec-generator-script/generate-openapi-spec.py:92-95 | an API key scheme holds type, name, in and description in that order, each answer or its default |
| SpecAuth.HttpScheme | openapi-spec-generator-script/generate-openapi-spec.py:97-101 | an HTTP scheme holds the scheme answer or `bearer`, a bearer format exactly when the scheme is `bearer`, and the description or its default |
| SpecAuth.BearerScheme | openapi-spec-generator-script/generate-openapi-spec.py:98-101 | a bearer scheme holds the format answer or `JWT` |
| SpecAuth.OtherHttpScheme | openapi-spec-generator-script/generate-openapi-spec.py:98-101 | any other HTTP scheme has no bearer format |
| SpecAuth.FlowScheme | openapi-spec-generator-script/generate-openapi-spec.py:103-117 | OAuth 2 and OpenID Connect get an authorization-code flow holding both URLs as answered and the scopes read |
| SpecAuth.ChosenScheme | openapi-spec-generator-script/generate-openapi-spec.py:90-117 | the scheme has the chosen type, and is missing exactly when a flow-based type's scope answers run out |
| SpecAuth.RegisterEffect | openapi-spec-generator-script/generate-openapi-spec.py:85-88 | the scheme is stored under its key in components/securitySchemes, both created when absent, and no other top-level entry changes |
| SpecAuth.RequireGloballyEffect | openapi-spec-generator-script/generate-openapi-spec.py:123-125 | the global list, created when absent, gains one requirement `{key: []}` at its end, and nothing else changes |
| SpecAuth.FinishEffect | openapi-spec-generator-script/generate-openapi-spec.py:119-125 | the scheme is registered, other entries are kept, and the requirement is appended exactly when the answer is not "n" in any case |
| SpecAuth.FinishSchemes | openapi-spec-generator-script/generate-openapi-spec.py:119 | the new scheme is found under its key and every other scheme is unchanged |
| SpecAuth.FinishRequirements | openapi-spec-generator-script/generate-openapi-spec.py:121-125 | the global requirements grow by the new one, or not at all on "n" |
| SpecAuth.FinishInvariants | openapi-spec-generator-script/generate-openapi-spec.py:85-125 | registering keeps the document well formed, every scheme typed and every requirement naming a registered scheme |
| SpecAuth.AuthSetup | openapi-spec-generator-script/generate-openapi-spec.py:71-127 | with no type chosen the document is returned unchanged; the step fails exactly when a flow-based type's scope answers run out |
| SpecAuth.AddAuthScheme | openapi-spec-generator-script/generate-openapi-spec.py:71-127 | the step as the script runs it computes `AuthSetup` |
| SpecAuth.SetupInvariants | openapi-spec-generator-script/generate-openapi-spec.py:71-127 | the whole step keeps the document's invariants |
| SpecBuilder.InitialSpec | openapi-spec-generator-script/generate-openapi-spec.py:133-145 | the document starts with openapi 3.0.0, the info, one server and empty paths, in that order |
| SpecBuilder.InfoObject | openapi-spec-generator-script/generate-openapi-spec.py:135-139 | title, version and description are the stripped answers, with `My API` and `1.0.0` for an empty title and version |
| SpecBuilder.ServerObject | openapi-spec-generator-script/generate-openapi-spec.py:140-143 | the server URL is the stripped answer or `https://api.example.com`, described as the production server |
| SpecBuilder.EndpointMethod | openapi-spec-generator-script/generate-openapi-spec.py:152 | the method is never empty and always lower case |
| SpecBuilder.ReadExample | openapi-spec-generator-script/generate-openapi-spec.py:158-161 | an example is read exactly when the name is non-empty and the file exists |
| SpecBuilder.OkResponses | openapi-spec-generator-script/generate-openapi-spec.py:178-188 | the 200 response holds the inferred schema and the example under the response content type |
| SpecBuilder.PathParameter | openapi-spec-generator-script/generate-openapi-spec.py:194-202 | a parameter is a required string path parameter with the given name |
| SpecBuilder.ExtractPathParameters | openapi-spec-generator-script/generate-openapi-spec.py:193 | the loop over the segments keeps, in order, the brace-stripped segments that hold a `{` |
| SpecBuilder.PathParametersPresent | openapi-spec-generator-script/generate-openapi-spec.py:192-193 | a path has parameter names exactly when it holds a `{`, so the parameters list is never empty |
| SpecBuilder.PetToyParameters | openapi-spec-generator-script/generate-openapi-spec.py:193 | `/pets/{id}/toys/{toyId}` has the parameters `id` and `toyId`, in order |
| SpecBuilder.SegmentParametersUnbraced | openapi-spec-generator-script/generate-openapi-spec.py:193 | no parameter name starts or ends with a brace |
| SpecBuilder.StartOperation | openapi-spec-generator-script/generate-openapi-spec.py:175-189 | the operation starts as summary, description and the 200 response |
| SpecBuilder.RequestBodyFor | openapi-spec-generator-script/generate-openapi-spec.py:207-216 | the request body is required and holds the example's schema and value |
| SpecBuilder.AddParameters | openapi-spec-generator-script/generate-openapi-spec.py:192-203 | a `parameters` entry is appended exactly when the path holds a `{` |
| SpecBuilder.AddRequestBody | openapi-spec-generator-script/generate-openapi-spec.py:205-216 | a `requestBody` entry is appended exactly when an example was read and is not None |
| SpecBuilder.AddSecurity | openapi-spec-generator-script/generate-openapi-spec.py:218-222 | a `security` entry is appended exactly when there is no global requirement, a scheme is registered and the answer is not "n" |
| SpecBuilder.BuildOperation | openapi-spec-generator-script/generate-openapi-spec.py:175-222 | the operation is filled in the script's order: the three fixed entries, then each optional one that applies |
| SpecBuilder.OperationEntries | openapi-spec-generator-script/generate-openapi-spec.py:175-222 | the operation holds its responses, and parameters, request body and security exactly when each applies |
| SpecBuilder.AddPathEffect | openapi-spec-generator-script/generate-openapi-spec.py:224 | the operation is stored under the path and method; the path replaces its old entry or is appended after the others; every other path and top-level entry is unchanged |
| SpecBuilder.AddEndpoint | openapi-spec-generator-script/generate-openapi-spec.py:151-224 | the endpoint step as the script runs it computes `Endpoint` |
| SpecBuilder.EndpointOperation | openapi-spec-generator-script/generate-openapi-spec.py:151-224 | a written document holds the assembled operation, every other path and every other top-level entry unchanged |
| SpecBuilder.EndpointRequestBody | openapi-spec-generator-script/generate-openapi-spec.py:155-216 | a request body is present exactly for post, put or patch with a named, existing and readable request file, and then describes that file |
| SpecBuilder.BodilessMethods | openapi-spec-generator-script/generate-openapi-spec.py:157 | get and delete never carry a request body |
| SpecBuilder.EndpointParameters | openapi-spec-generator-script/generate-openapi-spec.py:192-203 | parameters are present exactly when the path holds a `{`, and then list one path parameter per name, in order |
| SpecBuilder.EndpointSecurity | openapi-spec-generator-script/generate-openapi-spec.py:218-222 | the operation's own requirement is present exactly when there is no global requirement, a scheme is registered and the answer is not "n"; it names the first scheme's type |
| SpecBuilder.EndpointOutcome | openapi-spec-generator-script/generate-openapi-spec.py:164-168 | the endpoint step writes a document exactly when the response file is named and exists, and otherwise reports it missing |
| SpecBuilder.BuildSteps | openapi-spec-generator-script/generate-openapi-spec.py:133-148 | a run is the security step on the initial document, then the endpoint step on what it returns |
| SpecBuilder.BuildOutcomes | openapi-spec-generator-script/generate-openapi-spec.py:111-168 | a run ends at the end of input exactly when a flow-based type's scopes run out; otherwise it reports the response file missing, or writes the document exactly when the file is named and exists |
| SpecBuilder.SecuredDocument | openapi-spec-generator-script/generate-openapi-spec.py:79-125 | after the security step the chosen scheme is the only one, required globally exactly when the answer is not "n" |
| SpecBuilder.EndpointAfterSetup | openapi-spec-generator-script/generate-openapi-spec.py:218-224 | after the security step, the written document keeps the scheme and the global requirement, and the operation's own requirement follows the precedence rule |
| SpecBuilder.BuildSecurity | openapi-spec-generator-script/generate-openapi-spec.py:122-125 | over a whole run, an operation gets its own requirement exactly when a scheme was chosen, it is not global and the answer is not "n"; both kinds of requirement name the one registered scheme |

## Left out

- The YAML serialisation (`yaml.dump` at openapi_generator.py:159 and generate-openapi-spec.py:229) is not modelled. The model stops at the dict tree handed to the dumper.
- `main()` of openapi_generator.py (lines 161-216) is not modelled: its prompts, JSON parsing and printing are I/O around `generate_openapi_schema`.
- Reading files and `os.path.exists` are the `files` map. JSON parsing and the printed read error are not modelled; a failed read is `Null`.
- The prompts and `print` calls are left out. Answers are parameters, and the output-filename prompt and the write (generate-openapi-spec.py:227-231) are not modelled.
- Floating-point numbers are an uninterpreted literal. Only their kind matters to the scripts.
- `lower`, `upper` and `title` map ASCII letters only. Python's Unicode case mapping is not modelled.
- The scripts update dicts in place. The model builds new values instead. This is equivalent here because no dict is changed after it is shared: the example values stored under `example` (generate-openapi-spec.py:63, 184, 213) are never written to, and the `format` write at line 67 touches only the property dict just built.
- Sharing itself is not modelled. A nested dict or list of an example is the same object under a property's `example` and under the content's `example`, and `yaml.dump` writes it once with an anchor and then as an alias; the model holds two equal copies.
- `read_example_file`'s choice between parsing JSON and reading text by the `.json` suffix (generate-openapi-spec.py:28-30) is not modelled: the `files` map gives the value read directly.
- SpecAuth.AuthSetup: requires a document in the shape the step needs (`AuthReady`): a dict whose `components` and `securitySchemes` are dicts and whose `security` is a list, where present. On other documents the script raises `TypeError` (lines 85-88 or 119) or `AttributeError` (line 125) once it registers a scheme or appends a requirement; with no type chosen (lines 82-83) it returns such a document unchanged, and with the answer "n" (line 122) it skips the append. The builder never gives it such a document.
- SpecBuilder.AddEndpoint: requires `EndpointReady`: the shape `AuthReady` asks for, a dict `paths`, a `securitySchemes` that is non-empty where present, and every registered scheme a dict with a string `type`. Without them the script can fail at line 221 (`StopIteration` on an empty `securitySchemes`, `KeyError` on a scheme without `type`) or at line 224 (`TypeError` on a `paths` that is not a dict). The builder never gives it such a document: the only scheme is the one the security step registers.
- A failed `input()` anywhere other than the scope loop is not modelled. The answers for the fixed prompts are always given.
