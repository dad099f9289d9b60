/**
 * The single-endpoint generator (openapi_generator.py): schema properties
 * inferred from an example dict, content-type classification of the
 * response and the request, and the OpenAPI 3.0.0 document template around
 * one endpoint. The document is the dict tree handed to the YAML dumper.
 */
module OpenApiGenerator {
  import opened JsonValue
  import opened Text

  // ---------------------------------------------------------------------
  // json_to_schema_properties
  // ---------------------------------------------------------------------

  function ArrayOfObjects(key: string, properties: seq<Field>): Value
  {
    Obj([Field("type", Str("array")),
         Field("description", Str("An array of objects for " + key)),
         Field("items", Obj([Field("type", Str("object")), Field("properties", Obj(properties))]))])
  }

  function ArrayOfStrings(key: string): Value
  {
    Obj([Field("type", Str("array")),
         Field("description", Str("An array of strings for " + key)),
         Field("items", Obj([Field("type", Str("string"))]))])
  }

  function ObjectField(key: string, properties: seq<Field>): Value
  {
    Obj([Field("type", Str("object")),
         Field("description", Str("An object field for " + key)),
         Field("properties", Obj(properties))])
  }

  /** The schema stored under `key` for `value`, or None when the key is
      skipped. The isinstance tests run in the source's order: str, int
      (which a bool also is), float, bool, list, dict. */
  function PropertySchema(key: string, value: Value): (r: Option<Value>)
    decreases Size(value), 0
  {
    if value.Str? then Some(TypedNode("string", "A string field for " + key))
    else if IsInstanceInt(value) then Some(TypedNode("integer", "An integer field for " + key))
    else if value.Float? then Some(TypedNode("number", "A number field for " + key))
    else if value.Bool? then Some(TypedNode("boolean", "A boolean field for " + key))
    else if value.List? then
      var items := value.items;
      if |items| > 0 && items[0].Obj? then
        assert ItemsSize(items) == Size(items[0]) + ItemsSize(items[1..]);
        Some(ArrayOfObjects(key, SchemaProperties(items[0].fields)))
      else Some(ArrayOfStrings(key))
    else if value.Obj? then Some(ObjectField(key, SchemaProperties(value.fields)))
    else None
  }

  /** The properties dict built for `data`, entry by entry in key order. */
  function SchemaProperties(data: seq<Field>): (props: seq<Field>)
    ensures DistinctKeys(props)
    decreases FieldsSize(data), 1
  {
    if data == [] then []
    else
      var n := |data| - 1;
      var earlier := SchemaProperties(data[..n]);
      match PropertySchema(data[n].key, data[n].value)
      case Some(schema) => PutDistinct(earlier, data[n].key, schema); Put(earlier, data[n].key, schema)
      case None => earlier
  }

  /** json_to_schema_properties: fills the properties dict key by key,
      recursing into nested dicts and into the first element of a list. */
  method JsonToSchemaProperties(data: seq<Field>) returns (properties: seq<Field>)
    ensures properties == SchemaProperties(data)
    decreases FieldsSize(data)
  {
    properties := [];
    for n := 0 to |data|
      invariant properties == SchemaProperties(data[..n])
    {
      var key, value := data[n].key, data[n].value;
      assert data[..n + 1][..n] == data[..n];
      FieldSizeBound(data, n);
      if value.Str? {
        properties := Put(properties, key, TypedNode("string", "A string field for " + key));
      } else if IsInstanceInt(value) {
        properties := Put(properties, key, TypedNode("integer", "An integer field for " + key));
      } else if value.Float? {
        properties := Put(properties, key, TypedNode("number", "A number field for " + key));
      } else if value.Bool? {
        properties := Put(properties, key, TypedNode("boolean", "A boolean field for " + key));
      } else if value.List? {
        if |value.items| > 0 && value.items[0].Obj? {
          assert ItemsSize(value.items) == Size(value.items[0]) + ItemsSize(value.items[1..]);
          var nested := JsonToSchemaProperties(value.items[0].fields);
          properties := Put(properties, key, ArrayOfObjects(key, nested));
        } else {
          properties := Put(properties, key, ArrayOfStrings(key));
        }
      } else if value.Obj? {
        var nested := JsonToSchemaProperties(value.fields);
        properties := Put(properties, key, ObjectField(key, nested));
      }
    }
    assert data[..|data|] == data;
  }

  // ---------------------------------------------------------------------
  // What json_to_schema_properties promises
  // ---------------------------------------------------------------------

  /** The keys json_to_schema_properties keeps, in order: every key whose
      value is not null. */
  function KeptKeys(data: seq<Field>): seq<string>
  {
    if data == [] then []
    else
      var n := |data| - 1;
      KeptKeys(data[..n]) + (if data[n].value.Null? then [] else [data[n].key])
  }

  lemma {:induction false} KeptKeysWithin(data: seq<Field>, k: string)
    requires k in KeptKeys(data)
    ensures k in Keys(data)
  {
    var n := |data| - 1;
    if k in KeptKeys(data[..n]) {
      KeptKeysWithin(data[..n], k);
      assert Keys(data) == Keys(data[..n] + [data[n]]) by { assert data == data[..n] + [data[n]]; }
      KeysAppend(data[..n], [data[n]]);
    }
  }

  lemma PropertySchemaDefined(key: string, value: Value)
    ensures PropertySchema(key, value).Some? <==> !value.Null?
  {
  }

  /** One entry per key whose value is not null, in the input's key order. */
  lemma {:induction false} SchemaPropertiesKeys(data: seq<Field>)
    requires DistinctKeys(data)
    ensures Keys(SchemaProperties(data)) == KeptKeys(data)
  {
    if data != [] {
      var n := |data| - 1;
      var k := data[n].key;
      SchemaPropertiesKeys(data[..n]);
      var earlier := SchemaProperties(data[..n]);
      PropertySchemaDefined(k, data[n].value);
      if k in KeptKeys(data[..n]) {
        KeptKeysWithin(data[..n], k);
        assert false;
      }
      match PropertySchema(k, data[n].value)
      case Some(schema) =>
        KeysAppend(earlier, [Field(k, schema)]);
      case None =>
    }
  }

  /** Each key maps to the schema inferred from its own value, or is absent when that value is null. */
  lemma {:induction false} SchemaPropertiesLookup(data: seq<Field>, i: nat)
    requires DistinctKeys(data) && i < |data|
    ensures Lookup(SchemaProperties(data), data[i].key) == PropertySchema(data[i].key, data[i].value)
  {
    var n := |data| - 1;
    var earlier := SchemaProperties(data[..n]);
    SchemaPropertiesKeys(data[..n]);
    if i == n {
      if data[n].key in KeptKeys(data[..n]) {
        KeptKeysWithin(data[..n], data[n].key);
        assert false;
      }
      PropertySchemaDefined(data[n].key, data[n].value);
    } else {
      assert data[..n][i] == data[i];
      SchemaPropertiesLookup(data[..n], i);
      match PropertySchema(data[n].key, data[n].value)
      case Some(schema) => PutOther(earlier, data[n].key, schema, data[i].key);
      case None =>
    }
  }

  /** Every string stored under a "type" key, at any depth of nested dicts, lies in `allowed`. */
  predicate TypesWithin(v: Value, allowed: set<string>)
  {
    match v
    case Obj(fields) => forall i :: 0 <= i < |fields| ==> EntryTypesWithin(fields[i], allowed)
    case _ => true
  }

  predicate EntryTypesWithin(f: Field, allowed: set<string>)
  {
    (f.key == "type" && f.value.Str? ==> f.value.s in allowed) && TypesWithin(f.value, allowed)
  }

  /** The type names json_to_schema_properties can actually emit. */
  const InferredTypes: set<string> := {"string", "integer", "number", "array", "object"}

  /** No schema json_to_schema_properties builds, at any depth, has type
      "boolean": a bool is caught by the int test first, so the boolean
      branch never runs. */
  lemma {:induction false} SchemaPropertiesNeverBoolean(data: seq<Field>)
    ensures TypesWithin(Obj(SchemaProperties(data)), InferredTypes)
    ensures "boolean" !in InferredTypes
    decreases FieldsSize(data), 1
  {
    if data != [] {
      var n := |data| - 1;
      var earlier := SchemaProperties(data[..n]);
      SchemaPropertiesNeverBoolean(data[..n]);
      match PropertySchema(data[n].key, data[n].value)
      case Some(schema) =>
        PropertySchemaNeverBoolean(data[n].key, data[n].value);
        PutKeepsTypes(earlier, data[n].key, schema);
      case None =>
    }
  }

  /** Storing a schema whose types are allowed keeps a dict's types allowed. */
  lemma PutKeepsTypes(d: seq<Field>, k: string, schema: Value)
    requires TypesWithin(Obj(d), InferredTypes) && TypesWithin(schema, InferredTypes) && schema.Obj?
    ensures TypesWithin(Obj(Put(d, k, schema)), InferredTypes)
  {
    var props := Put(d, k, schema);
    assert EntryTypesWithin(Field(k, schema), InferredTypes);
    forall i | 0 <= i < |props|
      ensures EntryTypesWithin(props[i], InferredTypes)
    {
      PutEntries(d, k, schema, i);
      if props[i] in d {
        var j :| 0 <= j < |d| && d[j] == props[i];
        assert EntryTypesWithin(d[j], InferredTypes);
      } else {
        assert props[i] == Field(k, schema);
      }
    }
  }

  lemma {:induction false} PropertySchemaNeverBoolean(key: string, value: Value)
    requires PropertySchema(key, value).Some?
    ensures TypesWithin(PropertySchema(key, value).value, InferredTypes)
    decreases Size(value), 0
  {
    if value.List? && |value.items| > 0 && value.items[0].Obj? {
      assert ItemsSize(value.items) == Size(value.items[0]) + ItemsSize(value.items[1..]);
      SchemaPropertiesNeverBoolean(value.items[0].fields);
      ArrayOfObjectsWithin(key, SchemaProperties(value.items[0].fields));
    } else if value.List? {
      ArrayOfStringsWithin(key);
    } else if value.Obj? {
      SchemaPropertiesNeverBoolean(value.fields);
      ObjectFieldWithin(key, SchemaProperties(value.fields));
    } else if value.Str? {
      TypedNodeWithin("string", "A string field for " + key);
    } else if IsInstanceInt(value) {
      TypedNodeWithin("integer", "An integer field for " + key);
    } else if value.Float? {
      TypedNodeWithin("number", "A number field for " + key);
    }
  }

  lemma TypedNodeWithin(t: string, description: string)
    requires t in InferredTypes
    ensures TypesWithin(TypedNode(t, description), InferredTypes)
  {
    var node := TypedNode(t, description);
    assert EntryTypesWithin(node.fields[0], InferredTypes);
    assert EntryTypesWithin(node.fields[1], InferredTypes);
  }

  lemma ArrayOfStringsWithin(key: string)
    ensures TypesWithin(ArrayOfStrings(key), InferredTypes)
  {
    var items := Obj([Field("type", Str("string"))]);
    assert EntryTypesWithin(items.fields[0], InferredTypes);
    var node := ArrayOfStrings(key);
    assert EntryTypesWithin(node.fields[0], InferredTypes);
    assert EntryTypesWithin(node.fields[1], InferredTypes);
    assert EntryTypesWithin(node.fields[2], InferredTypes);
  }

  lemma ArrayOfObjectsWithin(key: string, properties: seq<Field>)
    requires TypesWithin(Obj(properties), InferredTypes)
    ensures TypesWithin(ArrayOfObjects(key, properties), InferredTypes)
  {
    var items := Obj([Field("type", Str("object")), Field("properties", Obj(properties))]);
    assert EntryTypesWithin(items.fields[0], InferredTypes);
    assert EntryTypesWithin(items.fields[1], InferredTypes);
    var node := ArrayOfObjects(key, properties);
    assert EntryTypesWithin(node.fields[0], InferredTypes);
    assert EntryTypesWithin(node.fields[1], InferredTypes);
    assert EntryTypesWithin(node.fields[2], InferredTypes);
  }

  lemma ObjectFieldWithin(key: string, properties: seq<Field>)
    requires TypesWithin(Obj(properties), InferredTypes)
    ensures TypesWithin(ObjectField(key, properties), InferredTypes)
  {
    var node := ObjectField(key, properties);
    assert EntryTypesWithin(node.fields[0], InferredTypes);
    assert EntryTypesWithin(node.fields[1], InferredTypes);
    assert EntryTypesWithin(node.fields[2], InferredTypes);
  }

  /** A bool is described exactly as the int with the same truth value. */
  lemma BoolInferredAsInteger(key: string, b: bool)
    ensures PropertySchema(key, Bool(b)) == PropertySchema(key, Int(if b then 1 else 0))
    ensures PropertySchema(key, Bool(b)) == Some(TypedNode("integer", "An integer field for " + key))
  {
  }

  /** Only a list's first element is consulted: later elements never change the schema,
      and a list that does not start with a dict is described as a list of strings. */
  lemma ListFirstElementOnly(key: string, items: seq<Value>)
    ensures |items| > 0 ==> PropertySchema(key, List(items)) == PropertySchema(key, List(items[..1]))
    ensures !(|items| > 0 && items[0].Obj?) ==> PropertySchema(key, List(items)) == PropertySchema(key, List([]))
  {
  }

  // ---------------------------------------------------------------------
  // get_response_details
  // ---------------------------------------------------------------------

  /** A content type together with the example shown for it. */
  datatype ContentChoice = ContentChoice(contentType: string, example: Value)

  /** The predefined example for a content type: `examples.get(contentType)`. */
  function CannedExample(contentType: string): Option<Value>
  {
    if contentType == "image/png" then Some(Str("https://s3.example.com/generic-image.png"))
    else if contentType == "application/json" then Some(Obj([Field("message", Str("Success"))]))
    else if contentType == "text/html" then Some(Str("<html>Hello World!</html>"))
    else if contentType == "text/plain" then Some(Str("Hello world! Welcome to our API!"))
    else None
  }

  function Canned(contentType: string): Value
    requires CannedExample(contentType).Some?
  {
    CannedExample(contentType).value
  }

  /** `examples.get(contentType, fallback)` */
  function CannedOr(contentType: string, fallback: Value): Value
  {
    match CannedExample(contentType)
    case Some(e) => e
    case None => fallback
  }

  /** get_response_details: the response content type and the example shown
      with it, from the user's hint when one is given (`""` is no hint), else
      from the shape of the response example (Null is Python's None). */
  function ResponseDetails(responseExample: Value, userSpecifiedType: string): (r: ContentChoice)
    ensures r.contentType != ""
    ensures IsLowerCase(r.contentType)
    ensures r.example == CannedOr(r.contentType, responseExample)
    ensures userSpecifiedType == "" ==> CannedExample(r.contentType).Some?
  {
    FixedTypesCanned();
    LowerIsLowerCase(userSpecifiedType);
    if userSpecifiedType != "" then
      var contentType := Lower(userSpecifiedType);
      if Contains(contentType, "image/") then ContentChoice("image/png", Canned("image/png"))
      else if Contains(contentType, "json") then ContentChoice("application/json", Canned("application/json"))
      else if Contains(contentType, "html") then ContentChoice("text/html", Canned("text/html"))
      else ContentChoice(contentType, CannedOr(contentType, responseExample))
    else if responseExample.Obj? || responseExample.List? then
      ContentChoice("application/json", Canned("application/json"))
    else if responseExample.Str? then
      var responseLower := Lower(responseExample.s);
      if Contains(responseLower, "<html") then ContentChoice("text/html", Canned("text/html"))
      else if Contains(responseLower, ".jpg") || Contains(responseLower, ".png")
           || Contains(responseLower, ".gif") || Contains(responseLower, "image") then
        ContentChoice("image/png", Canned("image/png"))
      else ContentChoice("text/plain", Canned("text/plain"))
    else ContentChoice("text/plain", Canned("text/plain"))
  }

  /** The four fixed content types are lower case and each has a canned example. */
  lemma FixedTypesCanned()
    ensures IsLowerCase("image/png") && CannedExample("image/png").Some?
    ensures IsLowerCase("application/json") && CannedExample("application/json").Some?
    ensures IsLowerCase("text/html") && CannedExample("text/html").Some?
    ensures IsLowerCase("text/plain") && CannedExample("text/plain").Some?
  {
  }

  /** Facts about the four fixed content types that the classification rules test for. */
  lemma FixedTypesClassify()
    ensures Contains("image/png", "image/")
    ensures !Contains("application/json", "image/") && Contains("application/json", "json")
    ensures !Contains("text/html", "image/") && !Contains("text/html", "json") && Contains("text/html", "html")
    ensures !Contains("text/plain", "image/") && !Contains("text/plain", "json") && !Contains("text/plain", "html")
  {
    assert OccursAt("image/png", "image/", 0);
    JsonClassifies();
    HtmlClassifies();
    PlainClassifies();
  }

  lemma JsonClassifies()
    ensures !Contains("application/json", "image/") && Contains("application/json", "json")
  {
    assert OccursAt("application/json", "json", 12);
    NotContained("application/json", "image/", 3);
  }

  lemma HtmlClassifies()
    ensures !Contains("text/html", "image/") && !Contains("text/html", "json") && Contains("text/html", "html")
  {
    assert OccursAt("text/html", "html", 5);
    NotContained("text/html", "image/", 0);
    NotContained("text/html", "json", 0);
  }

  lemma PlainClassifies()
    ensures !Contains("text/plain", "image/") && !Contains("text/plain", "json") && !Contains("text/plain", "html")
  {
    NotContained("text/plain", "image/", 3);
    NotContained("text/plain", "json", 0);
    NotContained("text/plain", "html", 0);
  }

  /** Classification is stable: feeding its own answer back in, as hint and
      example, gives the same answer. */
  lemma {:induction false} ResponseDetailsStable(responseExample: Value, userSpecifiedType: string)
    ensures var r := ResponseDetails(responseExample, userSpecifiedType);
            ResponseDetails(r.example, r.contentType) == r
  {
    var r := ResponseDetails(responseExample, userSpecifiedType);
    FixedTypesClassify();
    LowerOfLowerCase(r.contentType);
  }

  /** A hint that names an image, JSON or HTML type, or a type with a
      predefined example, decides alone: the response example is ignored. */
  lemma HintOverridesExample(example1: Value, example2: Value, userSpecifiedType: string)
    requires userSpecifiedType != ""
    requires var t := Lower(userSpecifiedType);
             Contains(t, "image/") || Contains(t, "json") || Contains(t, "html") || CannedExample(t).Some?
    ensures ResponseDetails(example1, userSpecifiedType) == ResponseDetails(example2, userSpecifiedType)
  {
  }

  /** With any hint the content type never depends on the example: it is
      one of the three fixed types or the lower-cased hint itself. Only the
      example shown may fall back to the response example. */
  lemma HintDecidesType(example1: Value, example2: Value, userSpecifiedType: string)
    requires userSpecifiedType != ""
    ensures ResponseDetails(example1, userSpecifiedType).contentType
            == ResponseDetails(example2, userSpecifiedType).contentType
    ensures ResponseDetails(example1, userSpecifiedType).contentType
            in {"image/png", "application/json", "text/html", Lower(userSpecifiedType)}
  {
  }

  /** Without a hint a list is reported as JSON and shown as the canned dict,
      so the list itself never reaches the document. */
  lemma ListExampleShownAsObject(items: seq<Value>)
    ensures ResponseDetails(List(items), "") == ContentChoice("application/json", Obj([Field("message", Str("Success"))]))
  {
  }

  /** An upper-case image hint selects image/png with its canned example, whatever the example. */
  lemma ImageHintExample(example: Value)
    ensures ResponseDetails(example, "IMAGE/JPEG")
            == ContentChoice("image/png", Str("https://s3.example.com/generic-image.png"))
  {
    assert Lower("IMAGE/JPEG")[..6] == "image/";
    assert OccursAt(Lower("IMAGE/JPEG"), "image/", 0);
  }

  /** Without a hint, an HTML document string is classified as text/html. */
  lemma HtmlExample()
    ensures ResponseDetails(Str("<html><body/></html>"), "").contentType == "text/html"
  {
    assert Lower("<html><body/></html>")[..5] == "<html";
    assert OccursAt(Lower("<html><body/></html>"), "<html", 0);
  }

  // ---------------------------------------------------------------------
  // Request content type
  // ---------------------------------------------------------------------

  /** The request body's content type: JSON for a dict, HTML for a string
      holding `<html` in any case, plain text for any other string, and none
      for every other value, a list included. */
  function RequestContentType(requestExample: Value): (r: Option<string>)
    ensures r.Some? <==> requestExample.Obj? || requestExample.Str?
    ensures r == Some("application/json") <==> requestExample.Obj?
    ensures r == Some("text/html") <==> requestExample.Str? && Contains(Lower(requestExample.s), "<html")
  {
    if requestExample.Obj? then Some("application/json")
    else if requestExample.Str? then
      if Contains(Lower(requestExample.s), "<html") then Some("text/html") else Some("text/plain")
    else None
  }

  // ---------------------------------------------------------------------
  // The document template of generate_openapi_schema
  // ---------------------------------------------------------------------

  /** The endpoint's path: under `/v1/{collection}/` exactly when the flag is "Yes". */
  function FullEndpointPath(endpointPath: string, isPartOfCollection: string): string
  {
    if isPartOfCollection == "Yes" then "/v1/{collection}/" + endpointPath else "/v1/" + endpointPath
  }

  const CollectionParameter: Value :=
    Obj([Field("name", Str("collection")),
         Field("in", Str("path")),
         Field("required", Bool(true)),
         Field("description", Str("The collection ID or name")),
         Field("schema", Obj([Field("type", Str("string"))]))])

  /** Python truthiness for the values that can have a request content type
      (dicts and strings): non-empty. No other value gets a content type, so
      for them the request body is decided without asking. */
  predicate NonEmptyDictOrString(v: Value)
  {
    (v.Obj? && v.fields != []) || (v.Str? && v.s != [])
  }

  /** `http_method not in ["GET", "DELETE"] and request_example and request_content_type`:
      the method test is case-sensitive. */
  predicate RequestBodyIncluded(httpMethod: string, requestExample: Value)
  {
    httpMethod != "GET" && httpMethod != "DELETE"
    && NonEmptyDictOrString(requestExample) && RequestContentType(requestExample).Some?
  }

  function RequestSchema(contentType: string, requestExample: Value): Value
  {
    if contentType == "application/json" && requestExample.Obj? then
      Obj([Field("type", Str("object")), Field("properties", Obj(SchemaProperties(requestExample.fields)))])
    else Obj([Field("type", Str("string"))])
  }

  /** A media type object: the schema and the example shown for one content type. */
  function MediaType(schema: Value, example: Value): (r: Value)
    ensures Get(r, "schema") == Some(schema) && Get(r, "example") == Some(example)
  {
    Obj([Field("schema", schema), Field("example", example)])
  }

  function RequestBody(contentType: string, requestExample: Value): (r: Value)
    ensures Get(r, "required") == Some(Bool(true))
    ensures Get(r, "content") == Some(Singleton(contentType, MediaType(RequestSchema(contentType, requestExample), requestExample)))
  {
    var r := Obj([Field("required", Bool(true)),
                  Field("description", Str("Request body for the endpoint")),
                  Field("content", Singleton(contentType, MediaType(RequestSchema(contentType, requestExample), requestExample)))]);
    LookupDistinct(r.fields, 2);
    r
  }

  /** The schema type shown for the response example. */
  function ExampleSchemaType(example: Value): string
  {
    if example.Obj? then "object" else if example.List? then "array" else "string"
  }

  const ResponseStatuses: seq<string> := ["200", "400", "401", "403", "500"]

  function SuccessResponse(details: ContentChoice): (r: Value)
    ensures Get(r, "content")
            == Some(Singleton(details.contentType,
                            MediaType(Obj([Field("type", Str(ExampleSchemaType(details.example)))]), details.example)))
  {
    Obj([Field("description", Str("Successful response")),
         Field("content", Singleton(details.contentType,
                                  MediaType(Obj([Field("type", Str(ExampleSchemaType(details.example)))]),
                                            details.example)))])
  }

  function Responses(details: ContentChoice): (r: Value)
    ensures r.Obj? && Keys(r.fields) == ResponseStatuses
    ensures Get(r, "200") == Some(SuccessResponse(details))
  {
    Obj([Field("200", SuccessResponse(details)),
         Field("400", Obj([Field("description", Str("Bad request"))])),
         Field("401", Obj([Field("description", Str("Unauthorized"))])),
         Field("403", Obj([Field("description", Str("Forbidden"))])),
         Field("500", Obj([Field("description", Str("Internal Server Error"))]))])
  }

  /** The request body entry of an operation: the empty mapping when no body is sent. */
  function RequestBodyEntry(httpMethod: string, requestExample: Value): Value
  {
    if RequestBodyIncluded(httpMethod, requestExample)
    then RequestBody(RequestContentType(requestExample).value, requestExample)
    else Obj([])
  }

  function Operation(endpointTitle: string, endpointDescription: string, httpMethod: string,
                     requestExample: Value, details: ContentChoice, isPartOfCollection: string): (r: Value)
    ensures Get(r, "security") == Some(List([Singleton("bearerAuth", List([]))]))
    ensures Get(r, "parameters") == Some(List(if isPartOfCollection == "Yes" then [CollectionParameter] else []))
    ensures Get(r, "requestBody") == Some(RequestBodyEntry(httpMethod, requestExample))
    ensures Get(r, "responses") == Some(Responses(details))
  {
    var summary := Field("summary", Str(endpointTitle));
    var description := Field("description", Str(endpointDescription));
    var security := Field("security", List([Singleton("bearerAuth", List([]))]));
    var parameters := Field("parameters", List(if isPartOfCollection == "Yes" then [CollectionParameter] else []));
    var requestBody := Field("requestBody", RequestBodyEntry(httpMethod, requestExample));
    var responses := Field("responses", Responses(details));
    OperationLookups(summary, description, security, parameters, requestBody, responses);
    Obj([summary, description, security, parameters, requestBody, responses])
  }

  /** The four entries after summary and description each find their own value. */
  lemma OperationLookups(summary: Field, description: Field, security: Field,
                         parameters: Field, requestBody: Field, responses: Field)
    requires summary.key == "summary" && description.key == "description"
    requires security.key == "security" && parameters.key == "parameters"
    requires requestBody.key == "requestBody" && responses.key == "responses"
    ensures var r := Obj([summary, description, security, parameters, requestBody, responses]);
      Get(r, "security") == Some(security.value) && Get(r, "parameters") == Some(parameters.value) &&
      Get(r, "requestBody") == Some(requestBody.value) && Get(r, "responses") == Some(responses.value)
  {
    var back := [security, parameters, requestBody, responses];
    assert [summary, description, security, parameters, requestBody, responses] == [summary] + ([description] + back);
    Lookup4(security, parameters, requestBody, responses);
    OperationKeysDiffer();
    forall k | k in Keys(back)
      ensures Lookup([summary] + ([description] + back), k) == Lookup(back, k)
    {
      LookupPast(description, back, k);
      LookupPast(summary, [description] + back, k);
    }
  }

  lemma OperationKeysDiffer()
    ensures forall k :: k in ["security", "parameters", "requestBody", "responses"] ==>
              k != "summary" && k != "description"
  {
  }

  const TemplateBearerScheme: Value :=
    Obj([Field("type", Str("http")),
         Field("scheme", Str("bearer")),
         Field("bearerFormat", Str("Enter your API Key as Bearer token"))])

  function Info(title: string, description: string): Value
  {
    Obj([Field("title", Str(title)), Field("description", Str(description)), Field("version", Str("1.0.0"))])
  }

  const TemplateServers: Value :=
    List([Obj([Field("url", Str("https://api.example.com")), Field("description", Str("Base URL for the API"))])])

  /** The top level of an OpenAPI 3.0.0 document, keys in the order the template writes them. */
  function Document(info: Value, servers: Value, components: Value, paths: Value): (doc: Value)
    ensures Get(doc, "openapi") == Some(Str("3.0.0"))
    ensures Get(doc, "components") == Some(components)
    ensures Get(doc, "paths") == Some(paths)
  {
    var doc := Obj([Field("openapi", Str("3.0.0")),
                    Field("info", info),
                    Field("servers", servers),
                    Field("components", components),
                    Field("paths", paths)]);
    LookupDistinct(doc.fields, 3);
    LookupDistinct(doc.fields, 4);
    doc
  }

  /** generate_openapi_schema up to the YAML dump: the whole document tree. */
  function OpenApiTemplate(endpointTitle: string, endpointDescription: string, endpointPath: string,
                           httpMethod: string, requestExample: Value, responseExample: Value,
                           responseContentType: string, isPartOfCollection: string): (doc: Value)
    ensures Get(doc, "openapi") == Some(Str("3.0.0"))
    ensures Get(doc, "components") == Some(Singleton("securitySchemes", Singleton("bearerAuth", TemplateBearerScheme)))
    ensures Get(doc, "paths")
            == Some(Singleton(FullEndpointPath(endpointPath, isPartOfCollection),
                              Singleton(Lower(httpMethod),
                                        Operation(endpointTitle, endpointDescription, httpMethod, requestExample,
                                                  ResponseDetails(responseExample, responseContentType),
                                                  isPartOfCollection))))
  {
    var details := ResponseDetails(responseExample, responseContentType);
    var components := Singleton("securitySchemes", Singleton("bearerAuth", TemplateBearerScheme));
    var paths := Singleton(FullEndpointPath(endpointPath, isPartOfCollection),
                           Singleton(Lower(httpMethod),
                                     Operation(endpointTitle, endpointDescription, httpMethod,
                                               requestExample, details, isPartOfCollection)));
    Document(Info(endpointTitle, endpointDescription), TemplateServers, components, paths)
  }

  /** The document holds exactly one path, the endpoint's, with one operation
      under the lower-cased method; that operation takes the collection
      parameter exactly when the flag is "Yes", and its security requirement
      names the one scheme the document declares. */
  lemma TemplateEndpoint(endpointTitle: string, endpointDescription: string, endpointPath: string,
                         httpMethod: string, requestExample: Value, responseExample: Value,
                         responseContentType: string, isPartOfCollection: string)
    ensures var doc := OpenApiTemplate(endpointTitle, endpointDescription, endpointPath, httpMethod,
                                       requestExample, responseExample, responseContentType, isPartOfCollection);
            var path := FullEndpointPath(endpointPath, isPartOfCollection);
            var m := Lower(httpMethod);
            && HasKeysAt(doc, ["paths"], [path])
            && HasKeysAt(doc, ["paths", path], [m])
            && At(doc, ["paths", path, m])
               == Some(Operation(endpointTitle, endpointDescription, httpMethod, requestExample,
                                 ResponseDetails(responseExample, responseContentType), isPartOfCollection))
            && At(doc, ["paths", path, m, "parameters"])
               == Some(List(if isPartOfCollection == "Yes" then [CollectionParameter] else []))
            && At(doc, ["paths", path, m, "security"]) == Some(List([Singleton("bearerAuth", List([]))]))
            && HasKeysAt(doc, ["components", "securitySchemes"], ["bearerAuth"])
  {
    var doc := OpenApiTemplate(endpointTitle, endpointDescription, endpointPath, httpMethod,
                               requestExample, responseExample, responseContentType, isPartOfCollection);
    var path := FullEndpointPath(endpointPath, isPartOfCollection);
    var m := Lower(httpMethod);
    var op := Operation(endpointTitle, endpointDescription, httpMethod, requestExample,
                        ResponseDetails(responseExample, responseContentType), isPartOfCollection);
    var methods := Singleton(m, op);
    var paths := Singleton(path, methods);
    At1(doc, "paths", paths);
    At2(doc, "paths", path, paths, methods);
    At3(doc, "paths", path, m, paths, methods, op);
    At4(doc, "paths", path, m, "parameters", paths, methods, op,
        List(if isPartOfCollection == "Yes" then [CollectionParameter] else []));
    At4(doc, "paths", path, m, "security", paths, methods, op, List([Singleton("bearerAuth", List([]))]));
    var schemes := Singleton("bearerAuth", TemplateBearerScheme);
    At2(doc, "components", "securitySchemes", Singleton("securitySchemes", schemes), schemes);
  }

  /** The request body is the empty mapping unless the method is neither
      "GET" nor "DELETE" (case-sensitively), the example is non-empty and it
      has a content type; when present it is required, shows the example
      verbatim under its content type, and a dict example gets the inferred
      properties. */
  lemma TemplateRequestBody(endpointTitle: string, endpointDescription: string, httpMethod: string,
                             requestExample: Value, details: ContentChoice, isPartOfCollection: string)
    ensures var op := Operation(endpointTitle, endpointDescription, httpMethod, requestExample, details,
                                isPartOfCollection);
            var body := Get(op, "requestBody");
            && body.Some?
            && (body == Some(Obj([])) <==> !RequestBodyIncluded(httpMethod, requestExample))
            && (RequestBodyIncluded(httpMethod, requestExample) ==>
                  var contentType := RequestContentType(requestExample).value;
                  && Get(body.value, "required") == Some(Bool(true))
                  && HasKeysAt(body.value, ["content"], [contentType])
                  && At(body.value, ["content", contentType, "example"]) == Some(requestExample)
                  && (requestExample.Obj? ==>
                        At(body.value, ["content", contentType, "schema", "properties"])
                        == Some(Obj(SchemaProperties(requestExample.fields))))
                  && (requestExample.Str? ==>
                        At(body.value, ["content", contentType, "schema", "type"]) == Some(Str("string"))))
  {
    if RequestBodyIncluded(httpMethod, requestExample) {
      var contentType := RequestContentType(requestExample).value;
      RequestBodyContent(contentType, requestExample);
      RequestBodySchema(contentType, requestExample);
    }
  }

  /** A request body shows the example verbatim under its one content type. */
  lemma RequestBodyContent(contentType: string, requestExample: Value)
    ensures var body := RequestBody(contentType, requestExample);
            && HasKeysAt(body, ["content"], [contentType])
            && At(body, ["content", contentType, "example"]) == Some(requestExample)
  {
    var media := MediaType(RequestSchema(contentType, requestExample), requestExample);
    var content := Singleton(contentType, media);
    var body := RequestBody(contentType, requestExample);
    At1(body, "content", content);
    At3(body, "content", contentType, "example", content, media, requestExample);
  }

  /** A JSON dict body gets the inferred properties, a text body a string schema. */
  lemma RequestBodySchema(contentType: string, requestExample: Value)
    requires contentType == "application/json" <==> requestExample.Obj?
    ensures var body := RequestBody(contentType, requestExample);
            && (requestExample.Obj? ==>
                  At(body, ["content", contentType, "schema", "properties"])
                  == Some(Obj(SchemaProperties(requestExample.fields))))
            && (!requestExample.Obj? ==>
                  At(body, ["content", contentType, "schema", "type"]) == Some(Str("string")))
  {
    var schema := RequestSchema(contentType, requestExample);
    var media := MediaType(schema, requestExample);
    var content := Singleton(contentType, media);
    var body := RequestBody(contentType, requestExample);
    if requestExample.Obj? {
      var properties := Field("properties", Obj(SchemaProperties(requestExample.fields)));
      assert schema.fields == [Field("type", Str("object")), properties];
      LookupAppend([Field("type", Str("object"))], [properties], "properties");
      At4(body, "content", contentType, "schema", "properties", content, media, schema, properties.value);
    } else {
      At4(body, "content", contentType, "schema", "type", content, media, schema, Str("string"));
    }
  }

  /** The responses are always 200, 400, 401, 403 and 500; the 200 response
      carries the classified content type and example, with the schema type
      of that example. */
  lemma ResponsesShape(details: ContentChoice)
    ensures var responses := Responses(details);
            && HasKeysAt(responses, [], ResponseStatuses)
            && HasKeysAt(responses, ["200", "content"], [details.contentType])
            && At(responses, ["200", "content", details.contentType, "example"]) == Some(details.example)
            && At(responses, ["200", "content", details.contentType, "schema", "type"])
               == Some(Str(ExampleSchemaType(details.example)))
  {
    var ct := details.contentType;
    var schema := Obj([Field("type", Str(ExampleSchemaType(details.example)))]);
    var media := MediaType(schema, details.example);
    var content := Singleton(ct, media);
    var responses := Responses(details);
    var ok := SuccessResponse(details);
    At2(responses, "200", "content", ok, content);
    At4(responses, "200", "content", ct, "example", ok, content, media, details.example);
    At4(responses, "200", "content", ct, "schema", ok, content, media, schema);
    AtStep(responses, "200", ["content", ct, "schema", "type"], ok);
    At4(ok, "content", ct, "schema", "type", content, media, schema, Str(ExampleSchemaType(details.example)));
    assert ["200"] + ["content", ct, "schema", "type"] == ["200", "content", ct, "schema", "type"];
  }

  /** The method test is case-sensitive: a lower-case "get" with a dict
      example gets a request body, "GET" never does. */
  lemma MethodTestIsCaseSensitive(example: seq<Field>)
    requires example != []
    ensures RequestBodyIncluded("get", Obj(example))
    ensures !RequestBodyIncluded("GET", Obj(example))
  {
  }
}
