/**
 * The interactive builder's main flow: the starting document from the
 * title, version, description and base URL answers; the security-scheme
 * step; then one endpoint, whose operation gets a summary, a description
 * and a 200 response from the response example file, a path parameter for
 * every `{...}` segment of the path, a request body from the request
 * example file for the methods that carry one, and a per-operation
 * security requirement when no global one was set.
 *
 * Files are a map from name to what reading the file gives: a name in the
 * map exists, and its value is the parsed JSON, the raw text, or Null when
 * reading failed.
 */
module SpecBuilder {
  import opened JsonValue
  import opened Text
  import opened SpecSchema
  import opened SpecAuth
  import OpenApiGenerator

  // ---------------------------------------------------------------------
  // The answers
  // ---------------------------------------------------------------------

  /** The answers to the four document prompts. */
  datatype InfoAnswers = InfoAnswers(title: string, version: string, description: string, baseUrl: string)

  /** The answers to the endpoint prompts. The request file is asked only
      for methods that carry a body, and the security question only when
      the document has schemes but no global requirement. */
  datatype EndpointAnswers = EndpointAnswers(
    path: string, httpMethod: string, requestFile: string, responseFile: string, addSecurity: string)

  datatype BuildAnswers = BuildAnswers(info: InfoAnswers, auth: AuthAnswers, endpoint: EndpointAnswers)

  /** How a run ends: the answers ran out during the scope loop, the
      response file was missing (nothing is written), or the document to write. */
  datatype BuildOutcome = EndOfInput | MissingResponseFile | Written(spec: Value)

  /** An example file read: its content type and what reading it gave. */
  datatype Example = Example(contentType: string, data: Value)

  // ---------------------------------------------------------------------
  // The starting document
  // ---------------------------------------------------------------------

  /** The document before the security step: stripped answers, with the
      defaults `My API`, `1.0.0`, an empty description and
      `https://api.example.com`, and no paths. */
  function InitialSpec(info: InfoAnswers): (spec: Value)
    ensures spec.Obj? && Keys(spec.fields) == ["openapi", "info", "servers", "paths"]
    ensures Get(spec, "openapi") == Some(Str("3.0.0"))
    ensures Get(spec, "info") == Some(InfoObject(info))
    ensures Get(spec, "servers") == Some(List([ServerObject(info.baseUrl)]))
    ensures Get(spec, "paths") == Some(Obj([]))
  {
    StartDocument(InfoObject(info), List([ServerObject(info.baseUrl)]))
  }

  /** `{openapi: 3.0.0, info, servers, paths: {}}` */
  function StartDocument(info: Value, servers: Value): (spec: Value)
    ensures spec.Obj? && Keys(spec.fields) == ["openapi", "info", "servers", "paths"]
    ensures Get(spec, "openapi") == Some(Str("3.0.0"))
    ensures Get(spec, "info") == Some(info)
    ensures Get(spec, "servers") == Some(servers)
    ensures Get(spec, "paths") == Some(Obj([]))
  {
    var openapi := Field("openapi", Str("3.0.0"));
    var paths := Field("paths", Obj([]));
    Lookup4(openapi, Field("info", info), Field("servers", servers), paths);
    Obj([openapi, Field("info", info), Field("servers", servers), paths])
  }

  function InfoObject(info: InfoAnswers): (r: Value)
    ensures Get(r, "title") == Some(Str(OrDefault(Strip(info.title), "My API")))
    ensures Get(r, "version") == Some(Str(OrDefault(Strip(info.version), "1.0.0")))
    ensures Get(r, "description") == Some(Str(Strip(info.description)))
  {
    var title := Field("title", Str(OrDefault(Strip(info.title), "My API")));
    var version := Field("version", Str(OrDefault(Strip(info.version), "1.0.0")));
    var description := Field("description", Str(Strip(info.description)));
    Lookup3(title, version, description);
    Obj([title, version, description])
  }

  function ServerObject(baseUrl: string): (r: Value)
    ensures Get(r, "url") == Some(Str(OrDefault(Strip(baseUrl), "https://api.example.com")))
    ensures Get(r, "description") == Some(Str("Production server"))
  {
    var r := Obj([Field("url", Str(OrDefault(Strip(baseUrl), "https://api.example.com"))),
                  Field("description", Str("Production server"))]);
    LookupDistinct(r.fields, 1);
    r
  }

  // ---------------------------------------------------------------------
  // What the endpoint step needs of the document
  // ---------------------------------------------------------------------

  /** Whether `securitySchemes` is present under `components`. */
  predicate HasSchemes(spec: Value)
  {
    "securitySchemes" in Keys(Components(spec))
  }

  /** The document the endpoint step is given: in the shape the security
      step needs, every scheme typed with a string, a scheme to take the
      type of whenever `securitySchemes` is present, and a `paths` dict. */
  predicate EndpointReady(spec: Value)
  {
    && AuthReady(spec)
    && SchemesTyped(spec)
    && (HasSchemes(spec) ==> Schemes(spec) != [])
    && Get(spec, "paths").Some? && Get(spec, "paths").value.Obj?
  }

  /** The entries of `paths`. */
  function Paths(spec: Value): seq<Field>
  {
    Member(spec, "paths")
  }

  /** The type of the first registered scheme. */
  function FirstSchemeType(spec: Value): string
    requires EndpointReady(spec) && HasSchemes(spec)
  {
    Get(Schemes(spec)[0].value, "type").value.s
  }

  // ---------------------------------------------------------------------
  // The pieces of the operation
  // ---------------------------------------------------------------------

  /** The methods whose request example is asked for. */
  const BodyMethods: seq<string> := ["post", "put", "patch"]

  /** The method answer stripped and lower-cased, `put` when empty. */
  function EndpointMethod(answer: string): (m: string)
    ensures m != [] && IsLowerCase(m)
  {
    var m := Lower(Strip(answer));
    LowerIsLowerCase(Strip(answer));
    if m == [] then "put" else m
  }

  /** The example of a named file: none when the name is empty or no such
      file exists, else its content type from the name and its contents. */
  function ReadExample(name: string, files: map<string, Value>): (r: Option<Example>)
    ensures r.Some? <==> name != [] && name in files
  {
    if name != [] && name in files then Some(Example(DetectContentType(name), files[name])) else None
  }

  /** The request example, read only for the methods that carry a body. */
  function RequestExample(httpMethod: string, requestFile: string, files: map<string, Value>): Option<Example>
  {
    if httpMethod in BodyMethods then ReadExample(Strip(requestFile), files) else None
  }

  /** `{content type: {schema, example}}` for an example, its schema made by generate_schema. */
  function Content(example: Example): (r: Value)
    ensures r.Obj? && Keys(r.fields) == [example.contentType]
    ensures Get(r, example.contentType)
            == Some(OpenApiGenerator.MediaType(FlatSchema(example.data, example.contentType), example.data))
  {
    Singleton(example.contentType, OpenApiGenerator.MediaType(FlatSchema(example.data, example.contentType), example.data))
  }

  /** The operation's responses: a single 200 showing the response example. */
  function OkResponses(response: Example): (r: Value)
    ensures r.Obj? && Keys(r.fields) == ["200"]
    ensures At(r, ["200", "description"]) == Some(Str("Successful operation"))
    ensures At(r, ["200", "content"]) == Some(Content(response))
  {
    var description := Field("description", Str("Successful operation"));
    var content := Field("content", Content(response));
    AtPair("200", description, content);
    Singleton("200", Obj([description, content]))
  }

  /** The characters stripped from both ends of a path segment. */
  const Braces: set<char> := {'{', '}'}

  /** The parameter names of a path: its `/`-separated segments holding a
      `{`, in order, with braces stripped from both ends. */
  function PathParameterNames(path: string): seq<string>
  {
    SegmentParameters(Split(path, '/'))
  }

  function SegmentParameters(segments: seq<string>): (names: seq<string>)
    ensures |names| <= |segments|
  {
    if segments == [] then []
    else (if '{' in segments[0] then [StripChars(segments[0], Braces)] else [])
         + SegmentParameters(segments[1..])
  }

  /** The parameters of a list of segments followed by one more segment. */
  lemma {:induction false} SegmentParametersSnoc(segments: seq<string>, last: string)
    ensures SegmentParameters(segments + [last])
            == SegmentParameters(segments) + (if '{' in last then [StripChars(last, Braces)] else [])
  {
    if segments == [] {
      assert [] + [last] == [last];
    } else {
      assert (segments + [last])[1..] == segments[1..] + [last];
      SegmentParametersSnoc(segments[1..], last);
    }
  }

  /** The Parameter Object of one path parameter. */
  function PathParameter(name: string): (r: Value)
    ensures Get(r, "name") == Some(Str(name))
    ensures Get(r, "in") == Some(Str("path"))
    ensures Get(r, "required") == Some(Bool(true))
    ensures Get(r, "schema") == Some(ParameterSchema(name))
  {
    var location := Field("in", Str("path"));
    var required := Field("required", Bool(true));
    var schema := Field("schema", ParameterSchema(name));
    Lookup4(Field("name", Str(name)), location, required, schema);
    Obj([Field("name", Str(name)), location, required, schema])
  }

  /** A path parameter's schema: a string described from its name, with `example-<name>` as example. */
  function ParameterSchema(name: string): (r: Value)
    ensures Get(r, "type") == Some(Str("string"))
    ensures Get(r, "description") == Some(Str("The " + Replace(name, '_', ' ')))
    ensures Get(r, "example") == Some(Str("example-" + name))
  {
    var description := Field("description", Str("The " + Replace(name, '_', ' ')));
    var example := Field("example", Str("example-" + name));
    Lookup3(Field("type", Str("string")), description, example);
    Obj([Field("type", Str("string")), description, example])
  }

  /** The `parameters` list: one Parameter Object per name, in order. */
  function PathParameters(names: seq<string>): (r: seq<Value>)
    ensures |r| == |names|
    ensures forall i :: 0 <= i < |names| ==> r[i] == PathParameter(names[i])
  {
    seq(|names|, i requires 0 <= i < |names| => PathParameter(names[i]))
  }

  /** The Request Body Object for a request example. */
  function RequestBodyObject(request: Example): (r: Value)
    ensures Get(r, "description") == Some(Str("Request payload"))
    ensures Get(r, "required") == Some(Bool(true))
    ensures Get(r, "content") == Some(Content(request))
  {
    var description := Field("description", Str("Request payload"));
    var required := Field("required", Bool(true));
    var content := Field("content", Content(request));
    Lookup3(description, required, content);
    Obj([description, required, content])
  }

  /** Whether the operation gets a request body: an example was read and it is not None. */
  predicate HasRequestBody(request: Option<Example>)
  {
    request.Some? && request.value.data != Null
  }

  /** The per-operation requirement: only when the document has no global
      requirement but has schemes, and the answer is not "n" in any case;
      it names the first scheme's type plus `Auth`. */
  function OperationSecurity(spec: Value, answer: string): Option<Value>
    requires EndpointReady(spec)
  {
    if "security" !in Keys(spec.fields) && HasSchemes(spec) && Lower(answer) != "n"
    then Some(List([Singleton(SchemeKey(FirstSchemeType(spec)), List([]))]))
    else None
  }

  /** `[Field(k, v)]` when there is a value `v`, else nothing. */
  function OptionalField(k: string, v: Option<Value>): (r: seq<Field>)
    ensures Keys(r) == if v.Some? then [k] else []
  {
    if v.Some? then [Field(k, v.value)] else []
  }

  /** The `parameters` entry: present only when the path holds a `{`. */
  function OperationParameters(path: string): Option<Value>
  {
    if '{' in path then Some(List(PathParameters(PathParameterNames(path)))) else None
  }

  /** The `requestBody` entry: present only for an example that was read and is not None. */
  function OperationRequestBody(request: Option<Example>): Option<Value>
  {
    if HasRequestBody(request) then Some(RequestBodyObject(request.value)) else None
  }

  /** The entries every operation starts with: summary, description and responses. */
  function OperationBase(path: string, httpMethod: string, response: Example): (base: seq<Field>)
    ensures Keys(base) == ["summary", "description", "responses"]
    ensures Lookup(base, "responses") == Some(OkResponses(response))
  {
    var summary := Field("summary", Str(Upper(httpMethod) + " operation for " + path));
    var description := Field("description", Str("Perform " + Upper(httpMethod) + " operation on " + path));
    var responses := Field("responses", OkResponses(response));
    Lookup3(summary, description, responses);
    [summary, description, responses]
  }

  /** The operation object: summary, description and responses, then the
      parameters, the request body and the security requirement, each
      only when it applies, in this order. */
  function OperationFields(path: string, httpMethod: string, request: Option<Example>, response: Example,
                           security: Option<Value>): seq<Field>
  {
    OperationBase(path, httpMethod, response)
    + OptionalField("parameters", OperationParameters(path))
    + OptionalField("requestBody", OperationRequestBody(request))
    + OptionalField("security", security)
  }

  /** `spec["paths"][path] = {method: operation}`: the path's entry is
      replaced as a whole. */
  function AddPath(spec: Value, path: string, httpMethod: string, operation: Value): (r: Value)
    requires spec.Obj?
    ensures r.Obj?
  {
    Obj(Put(spec.fields, "paths", Obj(Put(Paths(spec), path, Singleton(httpMethod, operation)))))
  }

  /** The endpoint step of build_openapi_spec, from the answers and the files. */
  function Endpoint(spec: Value, answers: EndpointAnswers, files: map<string, Value>): BuildOutcome
    requires EndpointReady(spec)
  {
    var path := Strip(answers.path);
    var httpMethod := EndpointMethod(answers.httpMethod);
    match ReadExample(Strip(answers.responseFile), files)
    case None => MissingResponseFile
    case Some(response) =>
      var request := RequestExample(httpMethod, answers.requestFile, files);
      var operation := OperationFields(path, httpMethod, request, response, OperationSecurity(spec, answers.addSecurity));
      Written(AddPath(spec, path, httpMethod, Obj(operation)))
  }

  /** build_openapi_spec: the starting document, the security step, then the endpoint. */
  function Build(answers: BuildAnswers, files: map<string, Value>): BuildOutcome
  {
    var spec := InitialSpec(answers.info);
    InitialSpecReady(answers.info);
    match AuthSetup(spec, answers.auth)
    case None => EndOfInput
    case Some(secured) =>
      SetupKeepsEndpointReady(spec, answers.auth);
      Endpoint(secured, answers.endpoint, files)
  }

  // ---------------------------------------------------------------------
  // The endpoint step as the script runs it
  // ---------------------------------------------------------------------

  /** `[p.strip("{}") for p in path.split("/") if "{" in p]` */
  method ExtractPathParameters(path: string) returns (names: seq<string>)
    ensures names == PathParameterNames(path)
  {
    var segments := Split(path, '/');
    names := [];
    for i := 0 to |segments|
      invariant names == SegmentParameters(segments[..i])
    {
      SegmentParametersSnoc(segments[..i], segments[i]);
      assert segments[..i + 1] == segments[..i] + [segments[i]];
      if '{' in segments[i] {
        names := names + [StripChars(segments[i], Braces)];
      }
    }
    assert segments[..|segments|] == segments;
  }

  /** The endpoint step of build_openapi_spec: reads the request example
      for the methods that carry a body, aborts without the response
      example, then builds the operation and stores it under its path. */
  method AddEndpoint(spec: Value, answers: EndpointAnswers, files: map<string, Value>) returns (outcome: BuildOutcome)
    requires EndpointReady(spec)
    ensures outcome == Endpoint(spec, answers, files)
  {
    var path := Strip(answers.path);
    var httpMethod := Lower(Strip(answers.httpMethod));
    if httpMethod == "" {
      httpMethod := "put";
    }
    assert httpMethod == EndpointMethod(answers.httpMethod);
    var request: Option<Example> := None;
    if httpMethod in BodyMethods {
      var requestFile := Strip(answers.requestFile);
      if requestFile != "" && requestFile in files {
        request := Some(Example(DetectContentType(requestFile), files[requestFile]));
      }
    }
    assert request == RequestExample(httpMethod, answers.requestFile, files);
    var responseFile := Strip(answers.responseFile);
    if responseFile == "" || responseFile !in files {
      return MissingResponseFile;
    }
    var response := Example(DetectContentType(responseFile), files[responseFile]);
    var operation := BuildOperation(spec, path, httpMethod, request, response, answers.addSecurity);
    var paths := Put(Paths(spec), path, Singleton(httpMethod, Obj(operation)));
    EndpointWritten(spec, answers, files);
    return Written(Obj(Put(spec.fields, "paths", Obj(paths))));
  }

  /** With the response file present, the endpoint step writes the document
      with the assembled operation stored under its path. */
  lemma EndpointWritten(spec: Value, answers: EndpointAnswers, files: map<string, Value>)
    requires EndpointReady(spec)
    requires Strip(answers.responseFile) != [] && Strip(answers.responseFile) in files
    ensures var path := Strip(answers.path);
            var httpMethod := EndpointMethod(answers.httpMethod);
            var responseFile := Strip(answers.responseFile);
            var response := Example(DetectContentType(responseFile), files[responseFile]);
            var request := RequestExample(httpMethod, answers.requestFile, files);
            var security := OperationSecurity(spec, answers.addSecurity);
            Endpoint(spec, answers, files)
            == Written(AddPath(spec, path, httpMethod, Obj(OperationFields(path, httpMethod, request, response, security))))
  {
  }

  /** `{content type: {schema, example}}` with the schema generate_schema computes. */
  method ExampleContent(example: Example) returns (content: Value)
    ensures content == Content(example)
  {
    var schema := GenerateSchema(example.data, example.contentType);
    content := Singleton(example.contentType, OpenApiGenerator.MediaType(schema, example.data));
  }

  /** The summary, the description and the single 200 response. */
  method StartOperation(path: string, httpMethod: string, response: Example) returns (operation: seq<Field>)
    ensures operation == OperationBase(path, httpMethod, response)
  {
    var content := ExampleContent(response);
    var ok := Obj([Field("description", Str("Successful operation")), Field("content", content)]);
    operation := [Field("summary", Str(Upper(httpMethod) + " operation for " + path)),
                  Field("description", Str("Perform " + Upper(httpMethod) + " operation on " + path)),
                  Field("responses", Singleton("200", ok))];
  }

  /** The Request Body Object, its schema computed by generate_schema. */
  method RequestBodyFor(request: Example) returns (body: Value)
    ensures body == RequestBodyObject(request)
  {
    var content := ExampleContent(request);
    body := Obj([Field("description", Str("Request payload")),
                 Field("required", Bool(true)),
                 Field("content", content)]);
  }

  /** The operation dict of build_openapi_spec, filled entry by entry:
      responses first, then the path parameters, the request body and the
      per-operation security, each only when it applies. */
  method BuildOperation(spec: Value, path: string, httpMethod: string, request: Option<Example>,
                        response: Example, addSecurity: string) returns (operation: seq<Field>)
    requires EndpointReady(spec)
    ensures operation == OperationFields(path, httpMethod, request, response, OperationSecurity(spec, addSecurity))
  {
    var base := StartOperation(path, httpMethod, response);
    var parameters := OperationParameters(path);
    var body := OperationRequestBody(request);
    OptionalKeys(base, parameters, body);
    operation := AddParameters(base, path);
    operation := AddRequestBody(operation, request);
    operation := AddSecurity(operation, spec, addSecurity);
  }

  /** `operation["parameters"] = [...]` when the path holds a `{`. */
  method AddParameters(operation: seq<Field>, path: string) returns (r: seq<Field>)
    requires "parameters" !in Keys(operation)
    ensures r == operation + OptionalField("parameters", OperationParameters(path))
  {
    r := operation;
    if '{' in path {
      var names := ExtractPathParameters(path);
      r := Put(r, "parameters", List(PathParameters(names)));
    }
  }

  /** `operation["requestBody"] = {...}` when a request example was read and is not None. */
  method AddRequestBody(operation: seq<Field>, request: Option<Example>) returns (r: seq<Field>)
    requires "requestBody" !in Keys(operation)
    ensures r == operation + OptionalField("requestBody", OperationRequestBody(request))
  {
    r := operation;
    if request.Some? && request.value.data != Null {
      var body := RequestBodyFor(request.value);
      r := Put(r, "requestBody", body);
    }
  }

  /** `operation["security"] = [...]` when the document has schemes but no
      global requirement and the answer is not "n". */
  method AddSecurity(operation: seq<Field>, spec: Value, addSecurity: string) returns (r: seq<Field>)
    requires EndpointReady(spec)
    requires "security" !in Keys(operation)
    ensures r == operation + OptionalField("security", OperationSecurity(spec, addSecurity))
  {
    r := operation;
    if "security" !in Keys(spec.fields) && HasSchemes(spec) && Lower(addSecurity) != "n" {
      var authType := FirstSchemeType(spec);
      r := Put(r, "security", List([Singleton(authType + "Auth", List([]))]));
    }
  }

  /** Each optional key is new when it is stored. */
  lemma OptionalKeys(base: seq<Field>, parameters: Option<Value>, body: Option<Value>)
    requires Keys(base) == ["summary", "description", "responses"]
    ensures "parameters" !in Keys(base)
    ensures "requestBody" !in Keys(base + OptionalField("parameters", parameters))
    ensures "security" !in Keys(base + OptionalField("parameters", parameters) + OptionalField("requestBody", body))
  {
    var p := OptionalField("parameters", parameters);
    var b := OptionalField("requestBody", body);
    KeysAppend(base, p);
    KeysAppend(base + p, b);
    AbsentFromOptional("requestBody", Keys(base), "parameters", "requestBody", Keys(p), []);
    AbsentFromOptional("security", Keys(base), "parameters", "requestBody", Keys(p), Keys(b));
  }

  /** A key absent from a dict's keys and different from the keys that may be added. */
  lemma AbsentFromOptional(k: string, front: seq<string>, a: string, b: string, pa: seq<string>, pb: seq<string>)
    requires k !in front && k != a
    requires pa == [] || pa == [a]
    requires pb == [] || (pb == [b] && k != b)
    ensures k !in front + pa + pb
  {
  }

  // ---------------------------------------------------------------------
  // The document invariants across the security step
  // ---------------------------------------------------------------------

  /** The starting document is ready for both steps and has neither
      components nor requirements. */
  lemma InitialSpecReady(info: InfoAnswers)
    ensures var spec := InitialSpec(info);
            && EndpointReady(spec) && SecurityResolves(spec)
            && Get(spec, "security") == None && Components(spec) == []
  {
    StartDocumentReady(InfoObject(info), List([ServerObject(info.baseUrl)]));
  }

  lemma StartDocumentReady(info: Value, servers: Value)
    ensures var spec := StartDocument(info, servers);
            && EndpointReady(spec) && SecurityResolves(spec)
            && Get(spec, "security") == None && Components(spec) == []
  {
    var spec := StartDocument(info, servers);
    StartKeysAbsent(spec);
    BareDocumentReady(spec);
  }

  /** Neither `components` nor `security` is among the initial keys. */
  lemma StartKeysAbsent(spec: Value)
    requires spec.Obj? && Keys(spec.fields) == ["openapi", "info", "servers", "paths"]
    ensures Get(spec, "components") == None && Get(spec, "security") == None
  {
    assert "components" !in Keys(spec.fields);
    assert "security" !in Keys(spec.fields);
  }

  /** A document with paths but neither components nor global security is
      ready for both steps. */
  lemma BareDocumentReady(spec: Value)
    requires spec.Obj? && Get(spec, "components") == None && Get(spec, "security") == None
    requires Get(spec, "paths").Some? && Get(spec, "paths").value.Obj?
    ensures EndpointReady(spec) && SecurityResolves(spec) && Components(spec) == []
  {
    assert Components(spec) == [];
  }

  /** The security step keeps a document ready for the endpoint step:
      in particular `securitySchemes` is only ever created holding a scheme. */
  lemma SetupKeepsEndpointReady(spec: Value, answers: AuthAnswers)
    requires EndpointReady(spec) && SecurityResolves(spec)
    ensures var r := AuthSetup(spec, answers);
            r.Some? ==> EndpointReady(r.value) && SecurityResolves(r.value) && Paths(r.value) == Paths(spec)
  {
    match AuthTypeOf(answers.choice)
    case None =>
    case Some(t) =>
      match ChosenScheme(t, answers)
      case None =>
      case Some(scheme) =>
        FinishKeepsEndpointReady(spec, SchemeKey(t), scheme, answers.applyGlobally);
  }

  /** Registering a typed scheme, and requiring it or not, keeps the
      document ready for the endpoint step and leaves its paths alone. */
  lemma FinishKeepsEndpointReady(spec: Value, key: string, scheme: Value, applyGlobally: string)
    requires EndpointReady(spec) && SecurityResolves(spec) && Typed(scheme)
    ensures var r := Finish(spec, key, scheme, applyGlobally);
            EndpointReady(r) && SecurityResolves(r) && Paths(r) == Paths(spec)
  {
    var r := Finish(spec, key, scheme, applyGlobally);
    FinishInvariants(spec, key, scheme, applyGlobally);
    FinishOthers(spec, key, scheme, applyGlobally);
    assert Get(r, "paths") == Get(spec, "paths");
    assert Schemes(r) != [] by {
      assert key in Keys(Schemes(r));
    }
  }

  // ---------------------------------------------------------------------
  // Path parameters
  // ---------------------------------------------------------------------

  /** A list of segments has no parameters exactly when no segment holds a `{`. */
  lemma {:induction false} SegmentParametersEmpty(segments: seq<string>)
    ensures SegmentParameters(segments) == [] <==> forall k :: 0 <= k < |segments| ==> '{' !in segments[k]
  {
    if segments != [] {
      var rest := segments[1..];
      SegmentParametersEmpty(rest);
      if forall k :: 0 <= k < |segments| ==> '{' !in segments[k] {
        forall k | 0 <= k < |rest| ensures '{' !in rest[k] {
          assert rest[k] == segments[k + 1];
        }
      }
      if '{' !in segments[0] && SegmentParameters(rest) == [] {
        forall k | 0 < k < |segments| ensures '{' !in segments[k] {
          assert segments[k] == rest[k - 1];
        }
      }
    }
  }

  /** A path has parameters exactly when it holds a `{`: the `parameters`
      entry, which is gated on the `{`, is never an empty list. */
  lemma PathParametersPresent(path: string)
    ensures PathParameterNames(path) != [] <==> '{' in path
  {
    var segments := Split(path, '/');
    SegmentParametersEmpty(segments);
    InSplit(path, '/', '{');
    if '{' in path {
      var k :| 0 <= k < |segments| && '{' in segments[k];
      assert !forall k :: 0 <= k < |segments| ==> '{' !in segments[k];
    } else {
      assert forall k :: 0 <= k < |segments| ==> '{' !in segments[k];
    }
  }

  /** `/pets/{id}/toys/{toyId}` has the parameters `id` and `toyId`, in order. */
  lemma PetToyParameters()
    ensures PathParameterNames("/pets/{id}/toys/{toyId}") == ["id", "toyId"]
  {
    PetToySegments();
    PetToySegmentParameters();
  }

  lemma PetToySegmentParameters()
    ensures SegmentParameters(["", "pets", "{id}", "toys", "{toyId}"]) == ["id", "toyId"]
  {
    PetToyStripped();
    var segments := ["", "pets", "{id}", "toys", "{toyId}"];
    assert '{' in segments[4] && '{' !in segments[3] && '{' in segments[2];
    assert '{' !in segments[1] && '{' !in segments[0];
    assert SegmentParameters(segments[4..]) == ["toyId"];
    assert SegmentParameters(segments[3..]) == ["toyId"];
    assert SegmentParameters(segments[2..]) == ["id", "toyId"];
    assert SegmentParameters(segments[1..]) == ["id", "toyId"];
  }

  lemma PetToySegments()
    ensures Split("/pets/{id}/toys/{toyId}", '/') == ["", "pets", "{id}", "toys", "{toyId}"]
  {
    var segments := ["", "pets", "{id}", "toys", "{toyId}"];
    PetToyJoined();
    assert forall k :: 0 <= k < |segments| ==> '/' !in segments[k];
    SplitJoin(segments, '/');
  }

  lemma PetToyJoined()
    ensures Join(["", "pets", "{id}", "toys", "{toyId}"], '/') == "/pets/{id}/toys/{toyId}"
  {
    var segments := ["", "pets", "{id}", "toys", "{toyId}"];
    PetToyJoinedTail();
    assert segments[2..] == ["{id}", "toys", "{toyId}"];
    assert Join(segments[1..], '/') == "pets/{id}/toys/{toyId}";
  }

  lemma PetToyJoinedTail()
    ensures Join(["{id}", "toys", "{toyId}"], '/') == "{id}/toys/{toyId}"
  {
    var segments := ["{id}", "toys", "{toyId}"];
    assert Join(segments[2..], '/') == "{toyId}";
    assert Join(segments[1..], '/') == "toys/{toyId}";
  }

  lemma PetToyStripped()
    ensures StripChars("{id}", Braces) == "id"
    ensures StripChars("{toyId}", Braces) == "toyId"
  {
    assert TrimLeft("{id}", Braces) == "id}";
    assert TrimLeft("{toyId}", Braces) == "toyId}";
  }

  /** Every parameter name has its braces stripped from both ends. */
  lemma {:induction false} SegmentParametersUnbraced(segments: seq<string>)
    ensures forall name :: name in SegmentParameters(segments) ==>
              name == [] || (name[0] !in Braces && name[|name| - 1] !in Braces)
  {
    if segments != [] {
      SegmentParametersUnbraced(segments[1..]);
    }
  }

  // ---------------------------------------------------------------------
  // The operation's entries
  // ---------------------------------------------------------------------

  /** An optional entry between fields that do not hold its key is found
      exactly when it applies. */
  lemma OptionalLookup(front: seq<Field>, k: string, v: Option<Value>, back: seq<Field>)
    requires k !in Keys(front) && k !in Keys(back)
    ensures Lookup(front + OptionalField(k, v) + back, k) == v
  {
    LookupAppend(front + OptionalField(k, v), back, k);
    LookupAppend(front, OptionalField(k, v), k);
    KeysAppend(front, OptionalField(k, v));
  }

  /** The operation holds its responses, and each of `parameters`,
      `requestBody` and `security` exactly when it applies. */
  lemma OperationEntries(path: string, httpMethod: string, request: Option<Example>, response: Example,
                         security: Option<Value>)
    ensures var op := Obj(OperationFields(path, httpMethod, request, response, security));
            && Get(op, "responses") == Some(OkResponses(response))
            && Get(op, "parameters") == OperationParameters(path)
            && Get(op, "requestBody") == OperationRequestBody(request)
            && Get(op, "security") == security
  {
    var base := OperationBase(path, httpMethod, response);
    OptionalEntries(base, OkResponses(response), OperationParameters(path), OperationRequestBody(request), security);
  }

  /** The entries after the three fixed ones. */
  lemma OptionalEntries(base: seq<Field>, responses: Value, parameters: Option<Value>, body: Option<Value>,
                        security: Option<Value>)
    requires Keys(base) == ["summary", "description", "responses"]
    requires Lookup(base, "responses") == Some(responses)
    ensures var fields := base + OptionalField("parameters", parameters) + OptionalField("requestBody", body)
                          + OptionalField("security", security);
            && Lookup(fields, "responses") == Some(responses)
            && Lookup(fields, "parameters") == parameters
            && Lookup(fields, "requestBody") == body
            && Lookup(fields, "security") == security
  {
    var p := OptionalField("parameters", parameters);
    var b := OptionalField("requestBody", body);
    var s := OptionalField("security", security);
    OptionalKeys(base, parameters, body);
    ResponsesFirst(base, p, b, s, responses);
    RestLookup(base, p, b, s, parameters);
    BodyLookup(base + p, b, s, body);
    SecurityLookup(base + p + b, security);
  }

  lemma ResponsesFirst(base: seq<Field>, p: seq<Field>, b: seq<Field>, s: seq<Field>, responses: Value)
    requires Lookup(base, "responses") == Some(responses)
    ensures Lookup(base + p + b + s, "responses") == Some(responses)
  {
    assert base + p + b + s == base + (p + b + s);
    LookupAppend(base, p + b + s, "responses");
  }

  lemma BodyLookup(front: seq<Field>, b: seq<Field>, s: seq<Field>, body: Option<Value>)
    requires b == OptionalField("requestBody", body)
    requires Keys(s) == [] || Keys(s) == ["security"]
    requires "requestBody" !in Keys(front)
    ensures Lookup(front + b + s, "requestBody") == body
  {
    OptionalLookup(front, "requestBody", body, s);
  }

  lemma SecurityLookup(front: seq<Field>, security: Option<Value>)
    requires "security" !in Keys(front)
    ensures Lookup(front + OptionalField("security", security), "security") == security
  {
    OptionalLookup(front, "security", security, []);
    assert front + OptionalField("security", security) + [] == front + OptionalField("security", security);
  }

  lemma RestLookup(base: seq<Field>, p: seq<Field>, b: seq<Field>, s: seq<Field>, parameters: Option<Value>)
    requires p == OptionalField("parameters", parameters)
    requires Keys(b) == [] || Keys(b) == ["requestBody"]
    requires Keys(s) == [] || Keys(s) == ["security"]
    requires "parameters" !in Keys(base)
    ensures Lookup(base + p + b + s, "parameters") == parameters
  {
    assert "parameters" !in Keys(b) && "parameters" !in Keys(s);
    AbsentFromBoth("parameters", b, s);
    assert base + p + b + s == base + p + (b + s);
    OptionalLookup(base, "parameters", parameters, b + s);
  }

  lemma AbsentFromBoth(k: string, b: seq<Field>, s: seq<Field>)
    requires k !in Keys(b) && k !in Keys(s)
    ensures k !in Keys(b + s)
  {
    KeysAppend(b, s);
  }

  // ---------------------------------------------------------------------
  // Storing the operation
  // ---------------------------------------------------------------------

  /** `spec["paths"][path] = {method: operation}` replaces that path's entry,
      keeps every other path and every other top-level entry, and adds the
      path after the existing ones when it is new. */
  lemma AddPathEffect(spec: Value, path: string, httpMethod: string, operation: Value)
    requires spec.Obj?
    ensures var r := AddPath(spec, path, httpMethod, operation);
            && At(r, ["paths", path, httpMethod]) == Some(operation)
            && Keys(Paths(r)) == (if path in Keys(Paths(spec)) then Keys(Paths(spec)) else Keys(Paths(spec)) + [path])
            && (forall p :: p != path ==> Lookup(Paths(r), p) == Lookup(Paths(spec), p))
            && (forall k :: k != "paths" ==> Get(r, k) == Get(spec, k))
  {
    var entry := Singleton(httpMethod, operation);
    var paths := Put(Paths(spec), path, entry);
    var r := AddPath(spec, path, httpMethod, operation);
    MemberPut(spec.fields, "paths", paths);
    At3(r, "paths", path, httpMethod, Obj(paths), entry, operation);
    if path !in Keys(Paths(spec)) {
      PutNewKey(Paths(spec), path, entry);
    }
    forall p | p != path ensures Lookup(paths, p) == Lookup(Paths(spec), p) {
      PutOther(Paths(spec), path, entry, p);
    }
    forall k | k != "paths" ensures Get(r, k) == Get(spec, k) {
      MemberPutOther(spec.fields, "paths", Obj(paths), k);
    }
  }

  /** The operation a written document holds under the endpoint's path and method. */
  function StoredOperation(outcome: BuildOutcome, answers: EndpointAnswers): Option<Value>
  {
    if outcome.Written?
    then At(outcome.spec, ["paths", Strip(answers.path), EndpointMethod(answers.httpMethod)])
    else None
  }

  /** A written document holds the operation assembled from the answers. */
  lemma EndpointOperation(spec: Value, answers: EndpointAnswers, files: map<string, Value>)
    requires EndpointReady(spec)
    requires Strip(answers.responseFile) != [] && Strip(answers.responseFile) in files
    ensures var outcome := Endpoint(spec, answers, files);
            var path := Strip(answers.path);
            var httpMethod := EndpointMethod(answers.httpMethod);
            var responseFile := Strip(answers.responseFile);
            var response := Example(DetectContentType(responseFile), files[responseFile]);
            var request := RequestExample(httpMethod, answers.requestFile, files);
            var security := OperationSecurity(spec, answers.addSecurity);
            && outcome == Written(AddPath(spec, path, httpMethod, Obj(OperationFields(path, httpMethod, request, response, security))))
            && StoredOperation(outcome, answers) == Some(Obj(OperationFields(path, httpMethod, request, response, security)))
            && (forall k :: k != "paths" ==> Get(outcome.spec, k) == Get(spec, k))
            && (forall p :: p != path ==> Lookup(Paths(outcome.spec), p) == Lookup(Paths(spec), p))
  {
    var path := Strip(answers.path);
    var httpMethod := EndpointMethod(answers.httpMethod);
    var responseFile := Strip(answers.responseFile);
    var response := Example(DetectContentType(responseFile), files[responseFile]);
    var request := RequestExample(httpMethod, answers.requestFile, files);
    var operation := OperationFields(path, httpMethod, request, response, OperationSecurity(spec, answers.addSecurity));
    AddPathEffect(spec, path, httpMethod, Obj(operation));
    OperationEntries(path, httpMethod, request, response, OperationSecurity(spec, answers.addSecurity));
  }

  /** The request body is there exactly when the method is post, put or
      patch, the request file is named and exists, and reading it did not
      give None; it then describes that file's example. */
  lemma EndpointRequestBody(spec: Value, answers: EndpointAnswers, files: map<string, Value>)
    requires EndpointReady(spec)
    requires Strip(answers.responseFile) != [] && Strip(answers.responseFile) in files
    ensures var op := StoredOperation(Endpoint(spec, answers, files), answers);
            var httpMethod := EndpointMethod(answers.httpMethod);
            var requestFile := Strip(answers.requestFile);
            && op.Some?
            && (Get(op.value, "requestBody").Some?
                <==> httpMethod in BodyMethods && requestFile != [] && requestFile in files && files[requestFile] != Null)
            && (Get(op.value, "requestBody").Some? ==>
                  Get(op.value, "requestBody").value
                  == RequestBodyObject(Example(DetectContentType(requestFile), files[requestFile])))
  {
    var httpMethod := EndpointMethod(answers.httpMethod);
    var responseFile := Strip(answers.responseFile);
    var request := RequestExample(httpMethod, answers.requestFile, files);
    EndpointOperation(spec, answers, files);
    OperationEntries(Strip(answers.path), httpMethod, request,
                     Example(DetectContentType(responseFile), files[responseFile]),
                     OperationSecurity(spec, answers.addSecurity));
  }

  /** A get or a delete never carries a request body. */
  lemma BodilessMethods(spec: Value, answers: EndpointAnswers, files: map<string, Value>)
    requires EndpointReady(spec)
    requires Strip(answers.responseFile) != [] && Strip(answers.responseFile) in files
    requires EndpointMethod(answers.httpMethod) in {"get", "delete"}
    ensures var op := StoredOperation(Endpoint(spec, answers, files), answers);
            op.Some? && Get(op.value, "requestBody") == None
  {
    assert EndpointMethod(answers.httpMethod) !in BodyMethods by {
      GetDeleteBodiless();
    }
    EndpointRequestBody(spec, answers, files);
  }

  lemma GetDeleteBodiless()
    ensures "get" !in BodyMethods && "delete" !in BodyMethods
  {
    assert "get"[0] != "post"[0] && "get"[1] != "put"[1] && "get"[1] != "patch"[1];
    assert |"delete"| != |"post"| && |"delete"| != |"put"| && |"delete"| != |"patch"|;
  }

  /** The `parameters` entry is there exactly when the path holds a `{`,
      that is, when it has parameters, and lists one required path
      parameter per name, in order. */
  lemma EndpointParameters(spec: Value, answers: EndpointAnswers, files: map<string, Value>)
    requires EndpointReady(spec)
    requires Strip(answers.responseFile) != [] && Strip(answers.responseFile) in files
    ensures var op := StoredOperation(Endpoint(spec, answers, files), answers);
            var path := Strip(answers.path);
            && op.Some?
            && (Get(op.value, "parameters").Some? <==> '{' in path)
            && (Get(op.value, "parameters").Some? <==> PathParameterNames(path) != [])
            && (Get(op.value, "parameters").Some? ==>
                  Get(op.value, "parameters").value == List(PathParameters(PathParameterNames(path))))
  {
    var httpMethod := EndpointMethod(answers.httpMethod);
    var responseFile := Strip(answers.responseFile);
    EndpointOperation(spec, answers, files);
    OperationEntries(Strip(answers.path), httpMethod, RequestExample(httpMethod, answers.requestFile, files),
                     Example(DetectContentType(responseFile), files[responseFile]),
                     OperationSecurity(spec, answers.addSecurity));
    PathParametersPresent(Strip(answers.path));
  }

  /** The operation's security entry is the per-operation requirement. */
  lemma EndpointSecurity(spec: Value, answers: EndpointAnswers, files: map<string, Value>)
    requires EndpointReady(spec)
    requires Strip(answers.responseFile) != [] && Strip(answers.responseFile) in files
    ensures var op := StoredOperation(Endpoint(spec, answers, files), answers);
            && op.Some?
            && (Get(op.value, "security").Some?
                <==> "security" !in Keys(spec.fields) && HasSchemes(spec) && Lower(answers.addSecurity) != "n")
            && (Get(op.value, "security").Some? ==>
                  Get(op.value, "security").value == List([Singleton(FirstSchemeType(spec) + "Auth", List([]))]))
  {
    var httpMethod := EndpointMethod(answers.httpMethod);
    var responseFile := Strip(answers.responseFile);
    EndpointOperation(spec, answers, files);
    OperationEntries(Strip(answers.path), httpMethod, RequestExample(httpMethod, answers.requestFile, files),
                     Example(DetectContentType(responseFile), files[responseFile]),
                     OperationSecurity(spec, answers.addSecurity));
  }

  // ---------------------------------------------------------------------
  // Properties of a whole run
  // ---------------------------------------------------------------------

  /** A run ends in one of three ways: at the end of the answers when a
      type with flows was chosen and the scope answers run out before
      `done`; with no document when the response file is not named or does
      not exist; otherwise with the document to write. */
  lemma BuildOutcomes(answers: BuildAnswers, files: map<string, Value>)
    ensures var outcome := Build(answers, files);
            var t := AuthTypeOf(answers.auth.choice);
            var responseFile := Strip(answers.endpoint.responseFile);
            var runsOut := t.Some? && HasFlows(t.value) && ScopesFrom([], answers.auth.scopeLines).None?;
            && (outcome == EndOfInput <==> runsOut)
            && (outcome == MissingResponseFile <==> !runsOut && (responseFile == [] || responseFile !in files))
            && (outcome.Written? <==> !runsOut && responseFile != [] && responseFile in files)
  {
    BuildSteps(answers, files);
    var setup := AuthSetup(InitialSpec(answers.info), answers.auth);
    if setup.Some? {
      EndpointOutcome(setup.value, answers.endpoint, files);
    }
  }

  /** A run is the authentication step on the initial document, then the
      endpoint step on what it returns. */
  lemma BuildSteps(answers: BuildAnswers, files: map<string, Value>)
    ensures var spec := InitialSpec(answers.info);
            AuthReady(spec) &&
            var setup := AuthSetup(spec, answers.auth);
            && (setup.None? ==> Build(answers, files) == EndOfInput)
            && (setup.Some? ==> EndpointReady(setup.value) &&
                                Build(answers, files) == Endpoint(setup.value, answers.endpoint, files))
  {
    var spec := InitialSpec(answers.info);
    InitialSpecReady(answers.info);
    SetupKeepsEndpointReady(spec, answers.auth);
  }

  /** The endpoint step writes a document exactly when the response file
      is named and exists, and otherwise reports it missing. */
  lemma EndpointOutcome(spec: Value, answers: EndpointAnswers, files: map<string, Value>)
    requires EndpointReady(spec)
    ensures var outcome := Endpoint(spec, answers, files);
            var responseFile := Strip(answers.responseFile);
            && (outcome.Written? <==> responseFile != [] && responseFile in files)
            && (!outcome.Written? ==> outcome == MissingResponseFile)
  {
  }

  /** Security precedence over a whole run: the operation gets its own
      requirement exactly when a scheme was registered but not required
      globally and the endpoint answer is not "n". Both kinds of
      requirement name the one registered scheme. */
  lemma BuildSecurity(answers: BuildAnswers, files: map<string, Value>)
    ensures var outcome := Build(answers, files);
            var t := AuthTypeOf(answers.auth.choice);
            var global := t.Some? && Lower(answers.auth.applyGlobally) != "n";
            outcome.Written? ==> SecurityPlaced(outcome, answers.endpoint, t, global)
  {
    BuildSteps(answers, files);
    InitialSpecReady(answers.info);
    SecurityFromStart(InitialSpec(answers.info), answers.auth, answers.endpoint, files);
  }

  /** The security step then the endpoint step, from a document without
      schemes or requirements. */
  lemma SecurityFromStart(spec: Value, auth: AuthAnswers, endpoint: EndpointAnswers, files: map<string, Value>)
    requires EndpointReady(spec) && SecurityResolves(spec)
    requires Get(spec, "security") == None && Components(spec) == []
    ensures var setup := AuthSetup(spec, auth);
            var t := AuthTypeOf(auth.choice);
            var global := t.Some? && Lower(auth.applyGlobally) != "n";
            setup.Some? ==>
              && EndpointReady(setup.value)
              && (Endpoint(setup.value, endpoint, files).Written? ==>
                    SecurityPlaced(Endpoint(setup.value, endpoint, files), endpoint, t, global))
  {
    var setup := AuthSetup(spec, auth);
    if setup.Some? {
      SecuredDocument(spec, auth);
      EndpointOutcome(setup.value, endpoint, files);
      if Endpoint(setup.value, endpoint, files).Written? {
        var t := AuthTypeOf(auth.choice);
        EndpointAfterSetup(setup.value, endpoint, files, t, t.Some? && Lower(auth.applyGlobally) != "n");
      }
    }
  }

  /** What the security step leaves in a document that started without
      schemes or requirements: `t` as its only scheme when one was chosen,
      and the global requirement naming it exactly when `global` holds. */
  predicate SecuredBy(secured: Value, t: Option<string>, global: bool)
  {
    && EndpointReady(secured)
    && (global ==> t.Some?)
    && ("security" in Keys(secured.fields) <==> global)
    && (HasSchemes(secured) <==> t.Some?)
    && (t.Some? ==> Keys(Schemes(secured)) == [SchemeKey(t.value)] && FirstSchemeType(secured) == t.value)
    && Security(secured) == (if global then [Singleton(SchemeKey(t.value), List([]))] else [])
  }

  /** Where the written document's requirements sit, given the scheme `t`
      registered by the security step and whether it is required globally:
      the operation gets its own requirement naming `t` exactly when `t`
      exists, is not global and the per-operation answer is not "n"; the
      document keeps `t` as its only scheme and the global requirement. */
  predicate SecurityPlaced(outcome: BuildOutcome, answers: EndpointAnswers, t: Option<string>, global: bool)
    requires outcome.Written? && (global ==> t.Some?)
  {
    var op := StoredOperation(outcome, answers);
    && op.Some?
    && (Get(op.value, "security").Some? <==> t.Some? && !global && Lower(answers.addSecurity) != "n")
    && (Get(op.value, "security").Some? ==>
          Get(op.value, "security").value == List([Singleton(SchemeKey(t.value), List([]))]))
    && (t.Some? ==> Keys(Schemes(outcome.spec)) == [SchemeKey(t.value)])
    && (t.None? ==> !HasSchemes(outcome.spec))
    && Security(outcome.spec) == (if global then [Singleton(SchemeKey(t.value), List([]))] else [])
  }

  /** The endpoint step on a document holding at most the one scheme `t`,
      required globally when `global` holds. */
  lemma EndpointAfterSetup(secured: Value, answers: EndpointAnswers, files: map<string, Value>,
                           t: Option<string>, global: bool)
    requires SecuredBy(secured, t, global)
    requires Strip(answers.responseFile) != [] && Strip(answers.responseFile) in files
    ensures Endpoint(secured, answers, files).Written?
    ensures SecurityPlaced(Endpoint(secured, answers, files), answers, t, global)
  {
    OperationAfterSetup(secured, answers, files, t, global);
    DocumentAfterSetup(secured, answers, files);
  }

  /** The operation's own requirement after the security step. */
  lemma OperationAfterSetup(secured: Value, answers: EndpointAnswers, files: map<string, Value>,
                            t: Option<string>, global: bool)
    requires EndpointReady(secured)
    requires "security" in Keys(secured.fields) <==> global
    requires HasSchemes(secured) <==> t.Some?
    requires t.Some? ==> FirstSchemeType(secured) == t.value
    requires Strip(answers.responseFile) != [] && Strip(answers.responseFile) in files
    ensures var op := StoredOperation(Endpoint(secured, answers, files), answers);
            && op.Some?
            && (Get(op.value, "security").Some? <==> t.Some? && !global && Lower(answers.addSecurity) != "n")
            && (Get(op.value, "security").Some? ==>
                  Get(op.value, "security").value == List([Singleton(SchemeKey(t.value), List([]))]))
  {
    EndpointSecurity(secured, answers, files);
  }

  /** The endpoint step leaves the document's schemes and requirements alone. */
  lemma DocumentAfterSetup(secured: Value, answers: EndpointAnswers, files: map<string, Value>)
    requires EndpointReady(secured)
    requires Strip(answers.responseFile) != [] && Strip(answers.responseFile) in files
    ensures var outcome := Endpoint(secured, answers, files);
            && outcome.Written?
            && Components(outcome.spec) == Components(secured)
            && Schemes(outcome.spec) == Schemes(secured) && Security(outcome.spec) == Security(secured)
  {
    EndpointOperation(secured, answers, files);
    var outcome := Endpoint(secured, answers, files);
    SameSecurityParts(outcome.spec, secured);
  }

  /** Documents that agree on `components` and `security` agree on their
      schemes and requirements. */
  lemma SameSecurityParts(a: Value, b: Value)
    requires Get(a, "components") == Get(b, "components") && Get(a, "security") == Get(b, "security")
    ensures Components(a) == Components(b) && Schemes(a) == Schemes(b) && Security(a) == Security(b)
  {
  }

  /** What the security step makes of the starting document: at most one
      scheme, the chosen one, required globally unless the answer is "n". */
  lemma SecuredDocument(spec: Value, answers: AuthAnswers)
    requires EndpointReady(spec) && SecurityResolves(spec)
    requires Get(spec, "security") == None && Components(spec) == []
    requires AuthSetup(spec, answers).Some?
    ensures var t := AuthTypeOf(answers.choice);
            var secured := AuthSetup(spec, answers).value;
            SecuredBy(secured, t, t.Some? && Lower(answers.applyGlobally) != "n")
  {
    SetupKeepsEndpointReady(spec, answers);
    match AuthTypeOf(answers.choice)
    case None =>
    case Some(t) =>
      var scheme := ChosenScheme(t, answers).value;
      RegisteredFirst(spec, t, scheme, answers.applyGlobally);
  }

  /** Registering the first scheme. */
  lemma RegisteredFirst(spec: Value, t: string, scheme: Value, applyGlobally: string)
    requires EndpointReady(spec) && SecurityResolves(spec)
    requires Get(spec, "security") == None && Components(spec) == []
    requires Get(scheme, "type") == Some(Str(t))
    ensures var r := Finish(spec, SchemeKey(t), scheme, applyGlobally);
            var global := Lower(applyGlobally) != "n";
            && EndpointReady(r)
            && ("security" in Keys(r.fields) <==> global)
            && HasSchemes(r)
            && Schemes(r) == [Field(SchemeKey(t), scheme)]
            && FirstSchemeType(r) == t
            && Security(r) == (if global then [Singleton(SchemeKey(t), List([]))] else [])
  {
    var key := SchemeKey(t);
    FinishKeepsEndpointReady(spec, key, scheme, applyGlobally);
    FinishComponents(spec, key, scheme, applyGlobally);
    FinishSecurity(spec, key, scheme, applyGlobally);
    FinishRequirements(spec, key, scheme, applyGlobally);
  }
}
