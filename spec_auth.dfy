/**
 * The builder's security-scheme step: the answer to the menu picks an
 * OpenAPI security scheme type, the follow-up answers (empty meaning "take
 * the default") fill the Security Scheme Object, the scheme is registered
 * as `<type>Auth` under components/securitySchemes, and unless the user
 * answers "n" it is also required globally.
 */
module SpecAuth {
  import opened JsonValue
  import opened Text

  // ---------------------------------------------------------------------
  // The answers to the prompts
  // ---------------------------------------------------------------------

  /** One answer per prompt of the step. Only the prompts of the chosen type
      are asked; the others' answers are ignored. The scope prompt repeats,
      so its answers are a sequence; running out of them before "done" is
      the end of input. */
  datatype AuthAnswers = AuthAnswers(
    choice: string,
    keyName: string, keyLocation: string, keyDescription: string,
    httpScheme: string, bearerFormat: string, httpDescription: string,
    authorizationUrl: string, tokenUrl: string, scopeLines: seq<string>,
    applyGlobally: string)

  /** `input(...) or default`: an empty answer takes the default. */
  function OrDefault(answer: string, default: string): (r: string)
    ensures r == (if answer == [] then default else answer)
    ensures default != [] ==> r != []
  {
    if answer == [] then default else answer
  }

  /** AUTH_TYPES without its "none" row, which has no type. */
  const AuthTypes: map<string, string> :=
    map["1" := "apiKey", "2" := "http", "3" := "oauth2", "4" := "openIdConnect"]

  /** The menu answer stripped and lower-cased, empty meaning "none". */
  function Choice(answer: string): string
  {
    var c := Lower(Strip(answer));
    if c == [] then "none" else c
  }

  /** The scheme type chosen; None for "none" and for anything not on the menu. */
  function AuthTypeOf(answer: string): (t: Option<string>)
    ensures t.Some? <==> Choice(answer) in AuthTypes
    ensures t.Some? ==> t.value in AuthTypes.Values
  {
    var c := Choice(answer);
    if c in AuthTypes then Some(AuthTypes[c]) else None
  }

  /** The key a scheme of type `t` is registered under. */
  function SchemeKey(t: string): string
  {
    t + "Auth"
  }

  // ---------------------------------------------------------------------
  // The scope loop
  // ---------------------------------------------------------------------

  /** Reads scope lines into `scopes` until a line that lower-cases to
      "done"; a line without ':' is skipped, any other is split at its first
      ':' into a stripped name and a stripped description. None when the
      lines run out first. */
  function ScopesFrom(scopes: seq<Field>, lines: seq<string>): Option<seq<Field>>
    decreases |lines|
  {
    if lines == [] then None
    else if IsDone(lines[0]) then Some(scopes)
    else ScopesFrom(NextScopes(scopes, lines[0]), lines[1..])
  }

  /** One turn of the loop on a line that is not "done": a line without ':' is skipped. */
  function NextScopes(scopes: seq<Field>, line: string): seq<Field>
  {
    if ':' in line then AddScope(scopes, line) else scopes
  }

  /** The line that ends the loop, in any letter case. */
  predicate IsDone(line: string)
  {
    Lower(line) == "done"
  }

  /** `name, desc = line.split(':', 1)`: the name before the first ':', stripped. */
  function ScopeName(line: string): string
    requires ':' in line
  {
    Strip(line[..FirstIndex(line, ':')])
  }

  /** The description after the first ':', stripped; it may hold more colons. */
  function ScopeDescription(line: string): string
    requires ':' in line
  {
    Strip(line[FirstIndex(line, ':') + 1..])
  }

  /** `scopes[name.strip()] = desc.strip()` */
  function AddScope(scopes: seq<Field>, line: string): (r: seq<Field>)
    requires ':' in line
    ensures Lookup(r, ScopeName(line)) == Some(Str(ScopeDescription(line)))
  {
    Put(scopes, ScopeName(line), Str(ScopeDescription(line)))
  }

  /** The `while True` loop of add_auth_scheme. */
  method ReadScopes(lines: seq<string>) returns (scopes: Option<seq<Field>>)
    ensures scopes == ScopesFrom([], lines)
  {
    var acc: seq<Field> := [];
    var n := 0;
    while n < |lines|
      invariant n <= |lines|
      invariant ScopesFrom(acc, lines[n..]) == ScopesFrom([], lines)
    {
      var scope := lines[n];
      assert lines[n..][0] == scope && lines[n..][1..] == lines[n + 1..];
      if Lower(scope) == "done" {
        return Some(acc);
      }
      if ':' in scope {
        var i := FirstIndex(scope, ':');
        var name := scope[..i];
        var description := scope[i + 1..];
        acc := Put(acc, Strip(name), Str(Strip(description)));
      }
      n := n + 1;
    }
    return None;
  }

  // ---------------------------------------------------------------------
  // The security scheme object
  // ---------------------------------------------------------------------

  /** The Security Scheme Object built for type `t`, with the scopes read
      for the two flow-based types. */
  function SchemeFor(t: string, answers: AuthAnswers, scopes: seq<Field>): (scheme: Value)
    ensures Get(scheme, "type") == Some(Str(t))
  {
    if t == "apiKey" then
      Obj([Field("type", Str(t)),
           Field("name", Str(OrDefault(answers.keyName, "api_key"))),
           Field("in", Str(OrDefault(answers.keyLocation, "header"))),
           Field("description", Str(OrDefault(answers.keyDescription, "API key authentication")))])
    else if t == "http" then
      var scheme := OrDefault(answers.httpScheme, "bearer");
      var description := Str(OrDefault(answers.httpDescription, "HTTP authentication"));
      if scheme == "bearer" then
        Obj([Field("type", Str(t)),
             Field("scheme", Str(scheme)),
             Field("bearerFormat", Str(OrDefault(answers.bearerFormat, "JWT"))),
             Field("description", description)])
      else
        Obj([Field("type", Str(t)), Field("scheme", Str(scheme)), Field("description", description)])
    else if t == "oauth2" || t == "openIdConnect" then
      Obj([Field("type", Str(t)),
           Field("flows", Singleton("authorizationCode",
             Obj([Field("authorizationUrl", Str(answers.authorizationUrl)),
                  Field("tokenUrl", Str(answers.tokenUrl)),
                  Field("scopes", Obj(scopes))])))])
    else Obj([Field("type", Str(t))])
  }

  /** Whether the type reads scopes. */
  predicate HasFlows(t: string)
  {
    t == "oauth2" || t == "openIdConnect"
  }

  // ---------------------------------------------------------------------
  // The document parts the step reads and writes
  // ---------------------------------------------------------------------

  /** What the step needs of the document it is given: a dict whose
      `components` and `securitySchemes`, where present, are dicts, and whose
      `security`, where present, is a list. */
  predicate AuthReady(spec: Value)
  {
    && spec.Obj?
    && (Get(spec, "components").Some? ==> Get(spec, "components").value.Obj?)
    && (Get(spec, "components").Some? ==>
          Get(Get(spec, "components").value, "securitySchemes").Some? ==>
            Get(Get(spec, "components").value, "securitySchemes").value.Obj?)
    && (Get(spec, "security").Some? ==> Get(spec, "security").value.List?)
  }

  /** The `components` entries, or none. */
  function Components(spec: Value): seq<Field>
  {
    Member(spec, "components")
  }

  /** The registered security schemes, or none. */
  function Schemes(spec: Value): seq<Field>
  {
    Member(Obj(Components(spec)), "securitySchemes")
  }

  /** The global security requirements, or none. */
  function Security(spec: Value): seq<Value>
  {
    var s := Get(spec, "security");
    if s.Some? && s.value.List? then s.value.items else []
  }

  /** Every requirement of `requirements` is a dict naming only schemes of `names`. */
  predicate RequirementsName(requirements: seq<Value>, names: seq<string>)
  {
    forall r :: r in requirements ==> r.Obj? && forall k :: k in Keys(r.fields) ==> k in names
  }

  /** Every security requirement names only registered schemes. */
  predicate SecurityResolves(spec: Value)
  {
    RequirementsName(Security(spec), Keys(Schemes(spec)))
  }

  /** Requirements stay resolvable when schemes are added and the one new
      requirement names a registered scheme. */
  lemma RequirementsGrow(requirements: seq<Value>, names: seq<string>, names': seq<string>,
                         added: seq<Value>, key: string)
    requires RequirementsName(requirements, names)
    requires forall k :: k in names ==> k in names'
    requires key in names'
    requires added == [] || added == [Singleton(key, List([]))]
    ensures RequirementsName(requirements + added, names')
  {
  }

  /** The document with `scheme` stored under `key` in components/securitySchemes. */
  function Register(spec: Value, key: string, scheme: Value): (r: Value)
    requires spec.Obj?
    ensures r.Obj?
  {
    Obj(Put(spec.fields, "components",
            Obj(Put(Components(spec), "securitySchemes", Obj(Put(Schemes(spec), key, scheme))))))
  }

  /** The document with the requirement `{key: []}` appended to its global security. */
  function RequireGlobally(spec: Value, key: string): (r: Value)
    requires spec.Obj?
    ensures r.Obj?
  {
    Obj(Put(spec.fields, "security", List(Security(spec) + [Singleton(key, List([]))])))
  }

  /** The scheme read for a chosen type. */
  function ChosenScheme(t: string, answers: AuthAnswers): (r: Option<Value>)
    ensures r.Some? ==> Get(r.value, "type") == Some(Str(t))
    ensures r.None? <==> HasFlows(t) && ScopesFrom([], answers.scopeLines).None?
  {
    if HasFlows(t) then
      match ScopesFrom([], answers.scopeLines)
      case None => None
      case Some(scopes) => Some(SchemeFor(t, answers, scopes))
    else Some(SchemeFor(t, answers, []))
  }

  /** The document once the scheme is registered under `key`, and required
      globally unless the answer lower-cases to "n". */
  function Finish(spec: Value, key: string, scheme: Value, applyGlobally: string): (r: Value)
    requires spec.Obj?
    ensures r.Obj?
  {
    var registered := Register(spec, key, scheme);
    if Lower(applyGlobally) != "n" then RequireGlobally(registered, key) else registered
  }

  /** add_auth_scheme: the document after the step, or None when the scope
      answers run out. */
  function AuthSetup(spec: Value, answers: AuthAnswers): (r: Option<Value>)
    requires AuthReady(spec)
    ensures r.Some? ==> r.value.Obj?
    ensures AuthTypeOf(answers.choice).None? ==> r == Some(spec)
    ensures r.None? <==> AuthTypeOf(answers.choice).Some? && HasFlows(AuthTypeOf(answers.choice).value)
                         && ScopesFrom([], answers.scopeLines).None?
  {
    match AuthTypeOf(answers.choice)
    case None => Some(spec)
    case Some(t) =>
      match ChosenScheme(t, answers)
      case None => None
      case Some(scheme) => Some(Finish(spec, SchemeKey(t), scheme, answers.applyGlobally))
  }

  /** add_auth_scheme as the script runs it, updating the document step by step. */
  method AddAuthScheme(spec: Value, answers: AuthAnswers) returns (result: Option<Value>)
    requires AuthReady(spec)
    ensures result == AuthSetup(spec, answers)
  {
    var choice := Lower(Strip(answers.choice));
    if choice == "" {
      choice := "none";
    }
    if choice !in AuthTypes {
      return Some(spec);
    }
    var authType := AuthTypes[choice];
    var scopes: seq<Field> := [];
    if HasFlows(authType) {
      var read := ReadScopes(answers.scopeLines);
      if read.None? {
        return None;
      }
      scopes := read.value;
    }
    var scheme := SchemeFor(authType, answers, scopes);
    var key := authType + "Auth";
    var components := Components(spec);
    var schemes := Schemes(spec);
    schemes := Put(schemes, key, scheme);
    components := Put(components, "securitySchemes", Obj(schemes));
    var fields := Put(spec.fields, "components", Obj(components));
    if Lower(answers.applyGlobally) != "n" {
      var security := Security(Obj(fields));
      fields := Put(fields, "security", List(security + [Obj([Field(key, List([]))])]));
    }
    return Some(Obj(fields));
  }

  // ---------------------------------------------------------------------
  // Properties of the step
  // ---------------------------------------------------------------------

  /** The menu: "1" to "4" pick the type listed against them. */
  lemma MenuChoice(answer: string)
    requires answer in AuthTypes
    ensures AuthTypeOf(answer) == Some(AuthTypes[answer])
  {
    StripUnpadded(answer);
    assert Lower(answer) == answer;
  }

  /** An answer that strips and lower-cases to nothing or to "none"
      chooses no scheme. */
  lemma NoneChoice(answer: string)
    requires Lower(Strip(answer)) in {"", "none"}
    ensures AuthTypeOf(answer).None?
  {
    assert Choice(answer) == "none";
    assert |"none"| == 4;
  }

  /** Registering writes the scheme under its key in components/securitySchemes
      and changes no other top-level entry. */
  lemma RegisterEffect(spec: Value, key: string, scheme: Value)
    requires spec.Obj?
    ensures Components(Register(spec, key, scheme))
            == Put(Components(spec), "securitySchemes", Obj(Put(Schemes(spec), key, scheme)))
    ensures Schemes(Register(spec, key, scheme)) == Put(Schemes(spec), key, scheme)
    ensures forall k :: k != "components" ==> Get(Register(spec, key, scheme), k) == Get(spec, k)
  {
    var schemes := Put(Schemes(spec), key, scheme);
    var components := Put(Components(spec), "securitySchemes", Obj(schemes));
    MemberPut(spec.fields, "components", components);
    MemberPut(Components(spec), "securitySchemes", schemes);
    forall k | k != "components" ensures Get(Register(spec, key, scheme), k) == Get(spec, k) {
      MemberPutOther(spec.fields, "components", Obj(components), k);
    }
  }

  /** Requiring globally appends one requirement and changes no other top-level entry. */
  lemma RequireGloballyEffect(spec: Value, key: string)
    requires spec.Obj?
    ensures Get(RequireGlobally(spec, key), "security") == Some(List(Security(spec) + [Singleton(key, List([]))]))
    ensures Security(RequireGlobally(spec, key)) == Security(spec) + [Singleton(key, List([]))]
    ensures forall k :: k != "security" ==> Get(RequireGlobally(spec, key), k) == Get(spec, k)
    ensures Components(RequireGlobally(spec, key)) == Components(spec)
  {
    var requirements := List(Security(spec) + [Singleton(key, List([]))]);
    forall k | k != "security" ensures Get(RequireGlobally(spec, key), k) == Get(spec, k) {
      MemberPutOther(spec.fields, "security", requirements, k);
    }
    MemberPutOther(spec.fields, "security", requirements, "components");
  }

  /** Finishing registers the scheme under its key, keeps every other
      top-level entry, and appends the global requirement for it exactly
      when the answer is not "n" in any case. */
  lemma FinishEffect(spec: Value, key: string, scheme: Value, applyGlobally: string)
    requires spec.Obj?
    ensures var r := Finish(spec, key, scheme, applyGlobally);
            && Components(r) == Put(Components(spec), "securitySchemes", Obj(Put(Schemes(spec), key, scheme)))
            && Schemes(r) == Put(Schemes(spec), key, scheme)
            && (forall k :: k != "components" && k != "security" ==> Get(r, k) == Get(spec, k))
            && (Lower(applyGlobally) != "n" ==>
                  Get(r, "security") == Some(List(Security(spec) + [Singleton(key, List([]))])))
            && (Lower(applyGlobally) == "n" ==> Get(r, "security") == Get(spec, "security"))
  {
    FinishComponents(spec, key, scheme, applyGlobally);
    FinishOthers(spec, key, scheme, applyGlobally);
    FinishSecurity(spec, key, scheme, applyGlobally);
  }

  lemma FinishComponents(spec: Value, key: string, scheme: Value, applyGlobally: string)
    requires spec.Obj?
    ensures var r := Finish(spec, key, scheme, applyGlobally);
            && Components(r) == Put(Components(spec), "securitySchemes", Obj(Put(Schemes(spec), key, scheme)))
            && Schemes(r) == Put(Schemes(spec), key, scheme)
  {
    var registered := Register(spec, key, scheme);
    RegisterEffect(spec, key, scheme);
    if Lower(applyGlobally) != "n" {
      RequireGloballyEffect(registered, key);
    }
  }

  lemma FinishOthers(spec: Value, key: string, scheme: Value, applyGlobally: string)
    requires spec.Obj?
    ensures var r := Finish(spec, key, scheme, applyGlobally);
            forall k :: k != "components" && k != "security" ==> Get(r, k) == Get(spec, k)
  {
    var registered := Register(spec, key, scheme);
    RegisterEffect(spec, key, scheme);
    if Lower(applyGlobally) != "n" {
      RequireGloballyEffect(registered, key);
    }
  }

  lemma FinishSecurity(spec: Value, key: string, scheme: Value, applyGlobally: string)
    requires spec.Obj?
    ensures var r := Finish(spec, key, scheme, applyGlobally);
            && (Lower(applyGlobally) != "n" ==>
                  Get(r, "security") == Some(List(Security(spec) + [Singleton(key, List([]))])))
            && (Lower(applyGlobally) == "n" ==> Get(r, "security") == Get(spec, "security"))
  {
    var registered := Register(spec, key, scheme);
    RegisterEffect(spec, key, scheme);
    assert Get(registered, "security") == Get(spec, "security");
    if Lower(applyGlobally) != "n" {
      RequireGloballyEffect(registered, key);
    }
  }

  /** Registering keeps the other schemes and adds the new one. */
  lemma FinishSchemes(spec: Value, key: string, scheme: Value, applyGlobally: string)
    requires spec.Obj?
    ensures var r := Finish(spec, key, scheme, applyGlobally);
            && Lookup(Schemes(r), key) == Some(scheme)
            && (forall k :: k != key ==> Lookup(Schemes(r), k) == Lookup(Schemes(spec), k))
  {
    FinishComponents(spec, key, scheme, applyGlobally);
    forall k | k != key
      ensures Lookup(Put(Schemes(spec), key, scheme), k) == Lookup(Schemes(spec), k)
    {
      PutOther(Schemes(spec), key, scheme, k);
    }
  }

  /** The global requirements gain one entry naming the new scheme, unless the answer is "n". */
  lemma FinishRequirements(spec: Value, key: string, scheme: Value, applyGlobally: string)
    requires spec.Obj?
    ensures Security(Finish(spec, key, scheme, applyGlobally))
            == Security(spec) + (if Lower(applyGlobally) != "n" then [Singleton(key, List([]))] else [])
  {
    FinishSecurity(spec, key, scheme, applyGlobally);
  }

  /** A scheme with a string type. */
  predicate Typed(scheme: Value)
  {
    Get(scheme, "type").Some? && Get(scheme, "type").value.Str?
  }

  /** Every scheme of `schemes` has a string type. */
  predicate AllTyped(schemes: seq<Field>)
  {
    forall i :: 0 <= i < |schemes| ==> Typed(schemes[i].value)
  }

  /** Every registered scheme has a string `type`. */
  predicate SchemesTyped(spec: Value)
  {
    AllTyped(Schemes(spec))
  }

  /** Storing a typed scheme keeps every scheme typed. */
  lemma PutTyped(schemes: seq<Field>, key: string, scheme: Value)
    requires AllTyped(schemes) && Typed(scheme)
    ensures AllTyped(Put(schemes, key, scheme))
  {
    var r := Put(schemes, key, scheme);
    forall i | 0 <= i < |r| ensures Typed(r[i].value) {
      PutEntries(schemes, key, scheme, i);
      if r[i] in schemes {
        var j :| 0 <= j < |schemes| && schemes[j] == r[i];
      }
    }
  }

  /** Storing keeps every key and adds the stored one. */
  lemma PutKeys(d: seq<Field>, key: string, v: Value)
    ensures key in Keys(Put(d, key, v))
    ensures forall k :: k in Keys(d) ==> k in Keys(Put(d, key, v))
  {
    if key !in Keys(d) {
      PutNewKey(d, key, v);
    }
  }

  /** Finishing keeps the document in the shape the step needs. */
  lemma FinishReady(spec: Value, key: string, scheme: Value, applyGlobally: string)
    requires AuthReady(spec)
    ensures AuthReady(Finish(spec, key, scheme, applyGlobally))
  {
    var r := Finish(spec, key, scheme, applyGlobally);
    var schemes := Put(Schemes(spec), key, scheme);
    var components := Put(Components(spec), "securitySchemes", Obj(schemes));
    FinishEffect(spec, key, scheme, applyGlobally);
    assert Get(r, "components") == Some(Obj(components)) by {
      var registered := Register(spec, key, scheme);
      RegisterEffect(spec, key, scheme);
      MemberPut(spec.fields, "components", components);
      if Lower(applyGlobally) != "n" {
        RequireGloballyEffect(registered, key);
      }
    }
    assert Get(Obj(components), "securitySchemes") == Some(Obj(schemes));
  }

  /** Finishing keeps every scheme typed, given a typed new scheme. */
  lemma FinishTyped(spec: Value, key: string, scheme: Value, applyGlobally: string)
    requires spec.Obj? && SchemesTyped(spec) && Typed(scheme)
    ensures SchemesTyped(Finish(spec, key, scheme, applyGlobally))
  {
    FinishComponents(spec, key, scheme, applyGlobally);
    PutTyped(Schemes(spec), key, scheme);
  }

  /** Finishing keeps every global requirement naming a registered scheme. */
  lemma FinishResolves(spec: Value, key: string, scheme: Value, applyGlobally: string)
    requires spec.Obj? && SecurityResolves(spec)
    ensures SecurityResolves(Finish(spec, key, scheme, applyGlobally))
    ensures key in Keys(Schemes(Finish(spec, key, scheme, applyGlobally)))
  {
    FinishComponents(spec, key, scheme, applyGlobally);
    FinishRequirements(spec, key, scheme, applyGlobally);
    PutKeys(Schemes(spec), key, scheme);
    RequirementsGrow(Security(spec), Keys(Schemes(spec)), Keys(Put(Schemes(spec), key, scheme)),
                     if Lower(applyGlobally) != "n" then [Singleton(key, List([]))] else [], key);
  }

  /** Finishing keeps the document's invariants and leaves the new scheme registered. */
  lemma FinishInvariants(spec: Value, key: string, scheme: Value, applyGlobally: string)
    requires AuthReady(spec) && SecurityResolves(spec) && SchemesTyped(spec) && Typed(scheme)
    ensures var r := Finish(spec, key, scheme, applyGlobally);
            AuthReady(r) && SecurityResolves(r) && SchemesTyped(r) && key in Keys(Schemes(r))
  {
    FinishReady(spec, key, scheme, applyGlobally);
    FinishTyped(spec, key, scheme, applyGlobally);
    FinishResolves(spec, key, scheme, applyGlobally);
  }

  /** The whole step keeps the document's invariants. */
  lemma SetupInvariants(spec: Value, answers: AuthAnswers)
    requires AuthReady(spec) && SecurityResolves(spec) && SchemesTyped(spec)
    ensures var r := AuthSetup(spec, answers);
            r.Some? ==> AuthReady(r.value) && SecurityResolves(r.value) && SchemesTyped(r.value)
  {
    match AuthTypeOf(answers.choice)
    case None =>
    case Some(t) =>
      match ChosenScheme(t, answers)
      case None =>
      case Some(scheme) =>
        FinishInvariants(spec, SchemeKey(t), scheme, answers.applyGlobally);
  }

  // ---------------------------------------------------------------------
  // Defaults of the scheme fields
  // ---------------------------------------------------------------------

  /** An API key scheme: name, location and description in that order, each
      the answer given or, when empty, `api_key`, `header` and `API key authentication`. */
  lemma ApiKeyScheme(answers: AuthAnswers, scopes: seq<Field>)
    ensures var scheme := SchemeFor("apiKey", answers, scopes);
            && Keys(scheme.fields) == ["type", "name", "in", "description"]
            && Get(scheme, "name") == Some(Str(OrDefault(answers.keyName, "api_key")))
            && Get(scheme, "in") == Some(Str(OrDefault(answers.keyLocation, "header")))
            && Get(scheme, "description") == Some(Str(OrDefault(answers.keyDescription, "API key authentication")))
  {
    var name := Field("name", Str(OrDefault(answers.keyName, "api_key")));
    var location := Field("in", Str(OrDefault(answers.keyLocation, "header")));
    var description := Field("description", Str(OrDefault(answers.keyDescription, "API key authentication")));
    assert SchemeFor("apiKey", answers, scopes).fields == [Field("type", Str("apiKey")), name, location, description];
    Lookup4(Field("type", Str("apiKey")), name, location, description);
  }

  /** An HTTP scheme: the scheme answer or `bearer`; a bearer format (the
      answer or `JWT`) exactly when the scheme is `bearer`; then the
      description or `HTTP authentication`. */
  lemma HttpScheme(answers: AuthAnswers, scopes: seq<Field>)
    ensures var scheme := SchemeFor("http", answers, scopes);
            var name := OrDefault(answers.httpScheme, "bearer");
            && Get(scheme, "scheme") == Some(Str(name))
            && (Get(scheme, "bearerFormat").Some? <==> name == "bearer")
            && (name == "bearer" ==> Get(scheme, "bearerFormat") == Some(Str(OrDefault(answers.bearerFormat, "JWT"))))
            && Get(scheme, "description") == Some(Str(OrDefault(answers.httpDescription, "HTTP authentication")))
  {
    if OrDefault(answers.httpScheme, "bearer") == "bearer" {
      BearerScheme(answers, scopes);
    } else {
      OtherHttpScheme(answers, scopes);
    }
  }

  lemma BearerScheme(answers: AuthAnswers, scopes: seq<Field>)
    requires OrDefault(answers.httpScheme, "bearer") == "bearer"
    ensures var scheme := SchemeFor("http", answers, scopes);
            && Get(scheme, "scheme") == Some(Str("bearer"))
            && Get(scheme, "bearerFormat") == Some(Str(OrDefault(answers.bearerFormat, "JWT")))
            && Get(scheme, "description") == Some(Str(OrDefault(answers.httpDescription, "HTTP authentication")))
  {
    var format := Field("bearerFormat", Str(OrDefault(answers.bearerFormat, "JWT")));
    var description := Field("description", Str(OrDefault(answers.httpDescription, "HTTP authentication")));
    assert SchemeFor("http", answers, scopes).fields
           == [Field("type", Str("http")), Field("scheme", Str("bearer")), format, description];
    Lookup4(Field("type", Str("http")), Field("scheme", Str("bearer")), format, description);
  }

  lemma OtherHttpScheme(answers: AuthAnswers, scopes: seq<Field>)
    requires OrDefault(answers.httpScheme, "bearer") != "bearer"
    ensures var scheme := SchemeFor("http", answers, scopes);
            && Get(scheme, "scheme") == Some(Str(answers.httpScheme))
            && Get(scheme, "bearerFormat") == None
            && Get(scheme, "description") == Some(Str(OrDefault(answers.httpDescription, "HTTP authentication")))
  {
    var scheme := Field("scheme", Str(answers.httpScheme));
    var description := Field("description", Str(OrDefault(answers.httpDescription, "HTTP authentication")));
    var fields := [Field("type", Str("http")), scheme, description];
    assert SchemeFor("http", answers, scopes).fields == fields;
    Lookup3(Field("type", Str("http")), scheme, description);
    assert Keys(fields) == ["type", "scheme", "description"];
  }

  /** OAuth 2 and OpenID Connect schemes both get an authorization-code
      flow holding the two URLs as answered and the scopes read. */
  lemma FlowScheme(t: string, answers: AuthAnswers, scopes: seq<Field>)
    requires HasFlows(t)
    ensures var flow := At(SchemeFor(t, answers, scopes), ["flows", "authorizationCode"]);
            && flow.Some?
            && Get(flow.value, "authorizationUrl") == Some(Str(answers.authorizationUrl))
            && Get(flow.value, "tokenUrl") == Some(Str(answers.tokenUrl))
            && Get(flow.value, "scopes") == Some(Obj(scopes))
  {
    var scheme := SchemeFor(t, answers, scopes);
    var authorizationUrl := Field("authorizationUrl", Str(answers.authorizationUrl));
    var tokenUrl := Field("tokenUrl", Str(answers.tokenUrl));
    var flow := Obj([authorizationUrl, tokenUrl, Field("scopes", Obj(scopes))]);
    var flows := Singleton("authorizationCode", flow);
    assert Get(scheme, "flows") == Some(flows);
    At2(scheme, "flows", "authorizationCode", flows, flow);
    Lookup3(authorizationUrl, tokenUrl, Field("scopes", Obj(scopes)));
  }

  // ---------------------------------------------------------------------
  // The scope loop's rules
  // ---------------------------------------------------------------------

  /** Nothing after the first "done" is read. */
  lemma {:induction false} ScopesStopAtDone(scopes: seq<Field>, before: seq<string>, done: string, after: seq<string>)
    requires IsDone(done)
    requires forall k :: 0 <= k < |before| ==> !IsDone(before[k])
    ensures ScopesFrom(scopes, before + [done] + after) == ScopesFrom(scopes, before + [done])
    decreases |before|
  {
    if before == [] {
      assert ([] + [done] + after)[0] == done;
      assert ([] + [done])[0] == done;
    } else {
      var lines := before + [done] + after;
      assert lines[0] == before[0] && lines[1..] == before[1..] + [done] + after;
      assert (before + [done])[0] == before[0] && (before + [done])[1..] == before[1..] + [done];
      ScopesStopAtDone(NextScopes(scopes, before[0]), before[1..], done, after);
    }
  }

  /** Without a "done" line the answers run out: the end of input. */
  lemma {:induction false} ScopesNeedDone(scopes: seq<Field>, lines: seq<string>)
    requires forall k :: 0 <= k < |lines| ==> !IsDone(lines[k])
    ensures ScopesFrom(scopes, lines) == None
    decreases |lines|
  {
    if lines != [] {
      ScopesNeedDone(NextScopes(scopes, lines[0]), lines[1..]);
    }
  }

  /** The scope names read are distinct: a repeated name is overwritten. */
  lemma {:induction false} ScopesDistinct(scopes: seq<Field>, lines: seq<string>)
    requires DistinctKeys(scopes)
    ensures ScopesFrom(scopes, lines).Some? ==> DistinctKeys(ScopesFrom(scopes, lines).value)
    decreases |lines|
  {
    if lines != [] && !IsDone(lines[0]) {
      if ':' in lines[0] {
        PutDistinct(scopes, ScopeName(lines[0]), Str(ScopeDescription(lines[0])));
      }
      ScopesDistinct(NextScopes(scopes, lines[0]), lines[1..]);
    }
  }

  /** No scope line of `lines` before a "done" names `name`. */
  predicate NoLineNames(lines: seq<string>, name: string)
  {
    forall k :: 0 <= k < |lines| && !IsDone(lines[k]) && ':' in lines[k] ==> ScopeName(lines[k]) != name
  }

  /** A scope that no line renames keeps the description it had. */
  lemma {:induction false} KeptUntilRenamed(scopes: seq<Field>, lines: seq<string>, name: string)
    requires NoLineNames(lines, name)
    ensures ScopesFrom(scopes, lines).Some? ==> Lookup(ScopesFrom(scopes, lines).value, name) == Lookup(scopes, name)
    decreases |lines|
  {
    if lines != [] && !IsDone(lines[0]) {
      var line := lines[0];
      if ':' in line {
        PutOther(scopes, ScopeName(line), Str(ScopeDescription(line)), name);
      }
      assert NoLineNames(lines[1..], name) by {
        forall k | 0 <= k < |lines[1..]| ensures lines[1..][k] == lines[k + 1] {
        }
      }
      KeptUntilRenamed(NextScopes(scopes, line), lines[1..], name);
    }
  }

  /** A repeated scope name keeps the description of the last line naming
      it before "done", whatever lines lie between. */
  lemma {:induction false} LastNamingLineWins(scopes: seq<Field>, before: seq<string>, line: string, after: seq<string>)
    requires forall k :: 0 <= k < |before| ==> !IsDone(before[k])
    requires !IsDone(line) && ':' in line
    requires NoLineNames(after, ScopeName(line))
    ensures var r := ScopesFrom(scopes, before + [line] + after);
            r.Some? ==> Lookup(r.value, ScopeName(line)) == Some(Str(ScopeDescription(line)))
    decreases |before|
  {
    if before == [] {
      assert before + [line] + after == [line] + after;
      ScopesStep(scopes, line, after);
      KeptUntilRenamed(NextScopes(scopes, line), after, ScopeName(line));
    } else {
      var rest := before[1..] + [line] + after;
      assert before + [line] + after == [before[0]] + rest;
      ScopesStep(scopes, before[0], rest);
      LastNamingLineWins(NextScopes(scopes, before[0]), before[1..], line, after);
    }
  }

  /** Of two consecutive lines naming the same scope, the first has no
      effect at all. */
  lemma LaterScopeWins(scopes: seq<Field>, first: string, second: string, rest: seq<string>)
    requires !IsDone(first) && !IsDone(second) && ':' in first && ':' in second
    requires ScopeName(first) == ScopeName(second)
    ensures ScopesFrom(scopes, [first, second] + rest) == ScopesFrom(scopes, [second] + rest)
  {
    var name := ScopeName(first);
    assert [first, second] + rest == [first] + ([second] + rest);
    ScopesStep(scopes, first, [second] + rest);
    var once := NextScopes(scopes, first);
    ScopesStep(once, second, rest);
    ScopesStep(scopes, second, rest);
    PutPut(scopes, name, Str(ScopeDescription(first)), Str(ScopeDescription(second)));
    assert NextScopes(once, second) == NextScopes(scopes, second);
  }

  /** One turn of the loop on a line that is not "done". */
  lemma ScopesStep(scopes: seq<Field>, line: string, rest: seq<string>)
    requires !IsDone(line)
    ensures ScopesFrom(scopes, [line] + rest) == ScopesFrom(NextScopes(scopes, line), rest)
  {
    assert ([line] + rest)[0] == line && ([line] + rest)[1..] == rest;
  }
}
