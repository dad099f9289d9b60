/**
 * The interactive builder's content-type detection and its flat schema
 * generator: a file's extension picks the content type, and a JSON object
 * example becomes an object schema with one property per key, typed from
 * the value's kind, without looking inside nested values.
 */
module SpecSchema {
  import opened JsonValue
  import opened Text
  import OpenApiGenerator

  // ---------------------------------------------------------------------
  // detect_content_type
  // ---------------------------------------------------------------------

  /** CONTENT_TYPES: the extensions the builder recognises. */
  const ContentTypes: map<string, string> :=
    map[".json" := "application/json",
        ".html" := "text/html",
        ".txt" := "text/plain",
        ".xml" := "application/xml"]

  const DefaultContentType: string := "text/plain"

  /** The content type of an example file, from its lower-cased extension. */
  function DetectContentType(filename: string): (r: string)
    ensures r in ContentTypes.Values || r == DefaultContentType
  {
    var ext := Lower(Extension(filename));
    if ext in ContentTypes then ContentTypes[ext] else DefaultContentType
  }

  /** The final path component of `stem` holds a character other than a
      dot, so a dot appended to it starts an extension. */
  predicate HasStemChar(stem: string)
  {
    exists j :: LastIndex(stem, '/') < j < |stem| && stem[j] != '.'
  }

  /** A name without a '/' has its whole self as final component. */
  lemma NoSeparator(stem: string)
    requires '/' !in stem
    ensures LastIndex(stem, '/') == -1
  {
  }

  /** The extension of `stem.e` is `.e`, provided the stem's final
      component is not made of dots only and `e` is a single suffix. */
  lemma ExtensionOfName(stem: string, e: string)
    requires HasStemChar(stem)
    requires '.' !in e && '/' !in e
    ensures Extension(stem + "." + e) == "." + e
  {
    var p := stem + "." + e;
    var j :| LastIndex(stem, '/') < j < |stem| && stem[j] != '.';
    assert p[|stem|] == '.';
    assert forall k :: |stem| < k < |p| ==> p[k] == e[k - |stem| - 1];
    assert forall k :: 0 <= k < |stem| ==> p[k] == stem[k];
    var dotIndex := LastIndex(p, '.');
    var sepIndex := LastIndex(p, '/');
    assert dotIndex == |stem|;
    assert sepIndex == LastIndex(stem, '/');
    assert sepIndex + 1 <= j < dotIndex && p[j] != '.';
    assert p[dotIndex..] == "." + e;
  }

  /** A file named `stem.e` gets the type listed for `.e` in any letter case,
      and plain text for any extension not listed. */
  lemma DetectByExtension(stem: string, e: string)
    requires HasStemChar(stem)
    requires '.' !in e && '/' !in e
    ensures var ext := Lower("." + e);
            DetectContentType(stem + "." + e)
            == if ext in ContentTypes then ContentTypes[ext] else DefaultContentType
  {
    ExtensionOfName(stem, e);
  }

  /** A final component made of dots only before its last dot has no
      extension: `.json` and `dir/.json` are plain text. */
  lemma DotFileIsPlainText(dir: string, dots: string, e: string)
    requires dir == [] || dir[|dir| - 1] == '/'
    requires forall k :: 0 <= k < |dots| ==> dots[k] == '.'
    requires '.' !in e && '/' !in e
    ensures DetectContentType(dir + dots + "." + e) == DefaultContentType
  {
    var p := dir + dots + "." + e;
    var d := |dir| + |dots|;
    assert p[d] == '.';
    assert forall k :: d < k < |p| ==> p[k] == e[k - d - 1];
    assert forall k :: |dir| <= k < d ==> p[k] == dots[k - |dir|];
    assert forall k :: 0 <= k < |dir| ==> p[k] == dir[k];
    assert LastIndex(p, '.') == d;
    assert LastIndex(p, '/') == |dir| - 1;
    assert Extension(p) == "";
    assert Lower("") == "";
  }

  /** Leading dots do not count: `.json` is plain text. */
  lemma DotJsonIsPlainText()
    ensures DetectContentType(".json") == DefaultContentType
  {
    DotFileIsPlainText("", "", "json");
    assert "" + "" + "." + "json" == ".json";
  }

  /** A dot after an ordinary character does count: `a..json` is JSON. */
  lemma DoubleDotJson()
    ensures DetectContentType("a..json") == "application/json"
  {
    var stem := "a.";
    NoSeparator(stem);
    assert stem[0] != '.';
    DetectByExtension(stem, "json");
    assert stem + "." + "json" == "a..json";
    JsonListed();
  }

  lemma JsonListed()
    ensures Lower("." + "json") == ".json" && ".json" in ContentTypes
    ensures ContentTypes[".json"] == "application/json"
  {
    assert "." + "json" == ".json";
  }

  /** A name without a dot has no extension and is plain text. */
  lemma NoDotIsPlainText(filename: string)
    requires '.' !in filename
    ensures DetectContentType(filename) == DefaultContentType
  {
    assert Lower("") == "";
  }

  /** The extension is matched in any letter case. */
  lemma UpperCaseJsonExtension()
    ensures DetectContentType("user.JSON") == "application/json"
  {
    assert "user" + "." + "JSON" == "user.JSON";
    NoSeparator("user");
    assert "user"[0] != '.';
    DetectByExtension("user", "JSON");
    LowerDotJson();
  }

  lemma LowerDotJson()
    ensures Lower("." + "JSON") == ".json"
  {
    var ext := "." + "JSON";
    assert ext == ".JSON";
    assert LowerChar('J') == 'j' && LowerChar('S') == 's' && LowerChar('O') == 'o' && LowerChar('N') == 'n';
  }

  /** Only the last extension counts. */
  lemma LastExtensionCounts()
    ensures DetectContentType("archive.tar.xml") == "application/xml"
  {
    NoSeparator("archive.tar");
    assert "archive.tar"[0] != '.';
    ExtensionOfName("archive.tar", "xml");
    assert "archive.tar" + "." + "xml" == "archive.tar.xml";
    assert Lower(".xml") == ".xml";
  }

  // ---------------------------------------------------------------------
  // generate_schema
  // ---------------------------------------------------------------------

  /** The builder's type for a value: bool is tested before int, then
      float, list and dict; anything else (str, null) is "string". */
  function FieldType(v: Value): (t: string)
    ensures t == "boolean" <==> v.Bool?
    ensures t == "integer" <==> v.Int?
    ensures t == "number" <==> v.Float?
    ensures t == "array" <==> v.List?
    ensures t == "object" <==> v.Obj?
    ensures t == "string" <==> v.Str? || v.Null?
  {
    if v.Bool? then "boolean"
    else if IsInstanceInt(v) then "integer"
    else if v.Float? then "number"
    else if v.List? then "array"
    else if v.Obj? then "object"
    else "string"
  }

  /** Keys that get `format: int64`: integer values whose lower-cased key contains "id". */
  predicate IsIdInteger(key: string, v: Value)
  {
    FieldType(v) == "integer" && Contains(Lower(key), "id")
  }

  /** The property written for one key: its type, a description made from
      the key, the value itself as example, and the int64 format for ids. */
  function FlatProperty(key: string, v: Value): (p: Value)
    ensures Get(p, "type") == Some(Str(FieldType(v)))
    ensures Get(p, "description") == Some(Str("The " + Replace(key, '_', ' ')))
    ensures Get(p, "example") == Some(v)
  {
    var base := FlatPropertyBase(key, v);
    if IsIdInteger(key, v) then
      var format := [Field("format", Str("int64"))];
      LookupAppend(base, format, "type");
      LookupAppend(base, format, "description");
      LookupAppend(base, format, "example");
      Obj(base + format)
    else
      Obj(base)
  }

  function FlatPropertyBase(key: string, v: Value): (base: seq<Field>)
    ensures Keys(base) == ["type", "description", "example"]
    ensures Lookup(base, "type") == Some(Str(FieldType(v)))
    ensures Lookup(base, "description") == Some(Str("The " + Replace(key, '_', ' ')))
    ensures Lookup(base, "example") == Some(v)
  {
    var description := Field("description", Str("The " + Replace(key, '_', ' ')));
    Lookup3(Field("type", Str(FieldType(v))), description, Field("example", v));
    [Field("type", Str(FieldType(v))), description, Field("example", v)]
  }

  /** `format: int64` is present exactly on integer properties whose key contains "id". */
  lemma FlatPropertyFormat(key: string, v: Value)
    ensures Get(FlatProperty(key, v), "format") == if IsIdInteger(key, v) then Some(Str("int64")) else None
  {
    var base := FlatPropertyBase(key, v);
    FormatAbsent(base);
    if IsIdInteger(key, v) {
      LookupAppend(base, [Field("format", Str("int64"))], "format");
    }
  }

  lemma FormatAbsent(base: seq<Field>)
    requires Keys(base) == ["type", "description", "example"]
    ensures "format" !in Keys(base) && Lookup(base, "format") == None
  {
    assert "format" != "type" && "format" != "description" && "format" != "example";
  }

  /** The properties map: one entry per key of the example, in key order. */
  function FlatProperties(fields: seq<Field>): seq<Field>
  {
    if fields == [] then []
    else
      var last := fields[|fields| - 1];
      Put(FlatProperties(fields[..|fields| - 1]), last.key, FlatProperty(last.key, last.value))
  }

  lemma FlatPropertiesStep(fields: seq<Field>, n: nat)
    requires n < |fields|
    ensures FlatProperties(fields[..n + 1])
            == Put(FlatProperties(fields[..n]), fields[n].key, FlatProperty(fields[n].key, fields[n].value))
  {
    assert fields[..n + 1][..n] == fields[..n];
  }

  /** The schema for content that is not a JSON object: a string described
      by the title-cased subtype of the content type. */
  function StringSchema(contentType: string): (r: Value)
    ensures r.Obj? && Keys(r.fields) == ["type", "description"]
    ensures Get(r, "type") == Some(Str("string"))
    ensures Get(r, "description") == Some(Str(Title(LastSegment(contentType, '/')) + " content"))
  {
    TypedNode("string", Title(LastSegment(contentType, '/')) + " content")
  }

  /** What generate_schema returns. */
  function FlatSchema(data: Value, contentType: string): Value
  {
    if contentType != "application/json" || !data.Obj? then StringSchema(contentType)
    else ObjectSchemaNode(FlatProperties(data.fields))
  }

  /** `{type: object, properties: ...}` */
  function ObjectSchemaNode(properties: seq<Field>): (r: Value)
    ensures Get(r, "type") == Some(Str("object"))
    ensures Get(r, "properties") == Some(Obj(properties))
  {
    Obj([Field("type", Str("object")), Field("properties", Obj(properties))])
  }

  /** The type dispatch at the top of generate_schema's loop, as the loop
      runs it: the type starts as "string" and the first isinstance test
      that holds overwrites it. `FieldType` is the specification it is
      proved against, used by the functions and lemmas. */
  method TypeOf(value: Value) returns (fieldType: string)
    ensures fieldType == FieldType(value)
  {
    fieldType := "string";
    if value.Bool? {
      fieldType := "boolean";
    } else if IsInstanceInt(value) {
      fieldType := "integer";
    } else if value.Float? {
      fieldType := "number";
    } else if value.List? {
      fieldType := "array";
    } else if value.Obj? {
      fieldType := "object";
    }
  }

  /** One turn of generate_schema's loop: type the value, write the entry,
      then add the int64 format to the entry just written. */
  method AddFlatProperty(properties: seq<Field>, key: string, value: Value) returns (r: seq<Field>)
    ensures r == Put(properties, key, FlatProperty(key, value))
  {
    var fieldType := TypeOf(value);
    var entry := [Field("type", Str(fieldType)),
                  Field("description", Str("The " + Replace(key, '_', ' '))),
                  Field("example", value)];
    assert entry == FlatPropertyBase(key, value);
    r := Put(properties, key, Obj(entry));
    if fieldType == "integer" && Contains(Lower(key), "id") {
      var withFormat := Put(entry, "format", Str("int64"));
      FormatAppended(key, value);
      PutPut(properties, key, Obj(entry), Obj(withFormat));
      r := Put(r, key, Obj(withFormat));
    }
  }

  /** Adding the format to an id integer's entry gives the flat property. */
  lemma FormatAppended(key: string, value: Value)
    requires IsIdInteger(key, value)
    ensures Obj(Put(FlatPropertyBase(key, value), "format", Str("int64"))) == FlatProperty(key, value)
  {
    assert "format" !in Keys(FlatPropertyBase(key, value));
  }

  /** generate_schema: the loop fills the properties map key by key and
      then adds the int64 format to the entry it has just written. */
  method GenerateSchema(data: Value, contentType: string) returns (schema: Value)
    ensures schema == FlatSchema(data, contentType)
  {
    if contentType != "application/json" || !data.Obj? {
      return Obj([Field("type", Str("string")),
                  Field("description", Str(Title(LastSegment(contentType, '/')) + " content"))]);
    }
    var properties: seq<Field> := [];
    for n := 0 to |data.fields|
      invariant properties == FlatProperties(data.fields[..n])
    {
      properties := AddFlatProperty(properties, data.fields[n].key, data.fields[n].value);
      FlatPropertiesStep(data.fields, n);
    }
    assert data.fields[..|data.fields|] == data.fields;
    schema := Obj([Field("type", Str("object")), Field("properties", Obj(properties))]);
    assert schema == ObjectSchemaNode(properties);
  }

  // ---------------------------------------------------------------------
  // Properties of generate_schema
  // ---------------------------------------------------------------------

  /** Anything that is not a JSON object example gets a string schema with no properties. */
  lemma NonObjectSchema(data: Value, contentType: string)
    requires contentType != "application/json" || !data.Obj?
    ensures var schema := FlatSchema(data, contentType);
            && Get(schema, "type") == Some(Str("string"))
            && Get(schema, "properties") == None
            && Get(schema, "description") == Some(Str(Title(LastSegment(contentType, '/')) + " content"))
  {
  }

  /** Every key of the example gets a property, null-valued ones included,
      in the example's key order. */
  lemma {:induction false} FlatPropertiesKeys(fields: seq<Field>)
    requires DistinctKeys(fields)
    ensures Keys(FlatProperties(fields)) == Keys(fields)
  {
    if fields != [] {
      var prefix := fields[..|fields| - 1];
      var last := fields[|fields| - 1];
      FlatPropertiesKeys(prefix);
      LastKeyNew(fields);
      PutNewKey(FlatProperties(prefix), last.key, FlatProperty(last.key, last.value));
      KeysLast(fields);
    }
  }

  /** The property of each key is the flat property of that key's value. */
  lemma {:induction false} FlatPropertiesLookup(fields: seq<Field>, i: nat)
    requires DistinctKeys(fields) && i < |fields|
    ensures Lookup(FlatProperties(fields), fields[i].key) == Some(FlatProperty(fields[i].key, fields[i].value))
  {
    var prefix := fields[..|fields| - 1];
    var last := fields[|fields| - 1];
    if i < |fields| - 1 {
      assert prefix[i] == fields[i];
      FlatPropertiesLookup(prefix, i);
      PutOther(FlatProperties(prefix), last.key, FlatProperty(last.key, last.value), fields[i].key);
    }
  }

  /** The schema of a JSON object example, key by key: the properties are
      exactly the example's keys, each typed from its value alone. */
  lemma ObjectSchema(fields: seq<Field>, i: nat)
    requires DistinctKeys(fields) && i < |fields|
    ensures var schema := FlatSchema(Obj(fields), "application/json");
            && Get(schema, "type") == Some(Str("object"))
            && Get(schema, "properties") == Some(Obj(FlatProperties(fields)))
            && Keys(FlatProperties(fields)) == Keys(fields)
            && Lookup(FlatProperties(fields), fields[i].key) == Some(FlatProperty(fields[i].key, fields[i].value))
  {
    FlatPropertiesKeys(fields);
    FlatPropertiesLookup(fields, i);
  }

  /** The two generators disagree on booleans: the endpoint generator tests
      int first and calls a bool an integer, this one calls it a boolean. */
  lemma InferencersDisagreeOnBool(key: string, b: bool)
    ensures OpenApiGenerator.PropertySchema(key, Bool(b)).Some?
    ensures Get(OpenApiGenerator.PropertySchema(key, Bool(b)).value, "type") == Some(Str("integer"))
    ensures Get(FlatProperty(key, Bool(b)), "type") == Some(Str("boolean"))
  {
    OpenApiGenerator.BoolInferredAsInteger(key, b);
  }

  /** A nested dict stays a single property of type object carrying the
      whole dict as its example: this generator does not recurse. */
  lemma NestedObjectNotExpanded(key: string, inner: seq<Field>)
    ensures Get(FlatProperty(key, Obj(inner)), "type") == Some(Str("object"))
    ensures Get(FlatProperty(key, Obj(inner)), "example") == Some(Obj(inner))
    ensures Get(FlatProperty(key, Obj(inner)), "properties") == None
  {
  }

  /** `user_id: 42` is an int64 id, `name: "Ada"` a string and `active: true` a boolean. */
  lemma UserExample()
    ensures IsIdInteger("user_id", Int(42))
    ensures !IsIdInteger("active", Bool(true))
    ensures FieldType(Str("Ada")) == "string"
    ensures Get(FlatProperty("user_id", Int(42)), "description") == Some(Str("The user id"))
  {
    assert Lower("user_id")[5..7] == "id";
    assert OccursAt(Lower("user_id"), "id", 5);
    assert Replace("user_id", '_', ' ') == "user id";
    assert "The " + "user id" == "The user id";
  }
}
