/** Parameter validation (server/src/template/template_validator.cpp) and what it buys the renderer. */
module TemplateValidator {
  import opened TaskCommon
  import opened Text
  import opened Template
  import opened TemplateTrees

  datatype ParamType = StringType | IntType | BoolType | JsonType

  datatype ParamDef = ParamDef(name: string, typ: ParamType, required: bool, defaultValue: Json)

  datatype FieldError = FieldError(field: string, message: string)

  datatype ValidationResult = ValidationResult(ok: bool, resolved: Params, errors: seq<FieldError>)

  predicate TypeMatches(t: ParamType, v: Json) {
    match t
    case StringType => v.Str?
    case IntType => v.Int?
    case BoolType => v.Bool?
    case JsonType => true
  }

  /** The complaint a definition raises about the input, if any. */
  function Complaint(input: Params, def: ParamDef): Option<FieldError> {
    if def.name !in input then
      if def.required then Some(FieldError(def.name, "required")) else None
    else if TypeMatches(def.typ, input[def.name]) then None
    else Some(FieldError(def.name, "type mismatch"))
  }

  predicate OffersDefault(def: ParamDef, name: string) {
    def.name == name && !def.required && !def.defaultValue.Null?
  }

  /** The first definition that offers a default for `name`. */
  function DefaultFor(schema: seq<ParamDef>, name: string): Option<Json> {
    if schema == [] then None
    else if OffersDefault(schema[0], name) then Some(schema[0].defaultValue)
    else DefaultFor(schema[1..], name)
  }

  /** The value `name` has after validation: the caller's, else the first default offered. */
  function Settled(schema: seq<ParamDef>, input: Params, name: string): Option<Json> {
    if name in input then Some(input[name]) else DefaultFor(schema, name)
  }

  function Complaints(input: Params, schema: seq<ParamDef>): seq<FieldError> {
    if schema == [] then []
    else
      var c := Complaint(input, schema[0]);
      (if c.Some? then [c.value] else []) + Complaints(input, schema[1..])
  }

  ghost predicate Holds(resolved: Params, schema: seq<ParamDef>, input: Params) {
    forall name :: Given(resolved, name) == Settled(schema, input, name)
  }

  function Given(ps: Params, name: string): Option<Json> {
    if name in ps then Some(ps[name]) else None
  }

  lemma {:induction false} DefaultSnoc(schema: seq<ParamDef>, def: ParamDef, name: string)
    ensures DefaultFor(schema + [def], name) ==
              if DefaultFor(schema, name).Some? then DefaultFor(schema, name)
              else if OffersDefault(def, name) then Some(def.defaultValue) else None
  {
    if schema != [] {
      assert (schema + [def])[1..] == schema[1..] + [def];
      DefaultSnoc(schema[1..], def, name);
    }
  }

  lemma {:induction false} ComplaintsSnoc(input: Params, schema: seq<ParamDef>, def: ParamDef)
    ensures Complaints(input, schema + [def]) ==
              Complaints(input, schema) + (if Complaint(input, def).Some? then [Complaint(input, def).value] else [])
  {
    hide Complaint;
    if schema == [] {
      assert schema + [def] == [def] + schema;
      ComplaintsCons(input, def, schema);
    } else {
      ComplaintsSnoc(input, schema[1..], def);
      assert schema == [schema[0]] + schema[1..];
      assert schema + [def] == [schema[0]] + (schema[1..] + [def]);
      ComplaintsCons(input, schema[0], schema[1..]);
      ComplaintsCons(input, schema[0], schema[1..] + [def]);
      hide Complaints;
    }
  }

  lemma ComplaintsCons(input: Params, def: ParamDef, schema: seq<ParamDef>)
    ensures Complaints(input, [def] + schema) ==
              (if Complaint(input, def).Some? then [Complaint(input, def).value] else []) + Complaints(input, schema)
  {
    hide Complaint;
    assert ([def] + schema)[1..] == schema;
  }

  /** No complaints exactly when every definition is content. */
  lemma {:induction false} ComplaintsNone(input: Params, schema: seq<ParamDef>)
    ensures Complaints(input, schema) == [] <==> forall d <- schema :: Complaint(input, d) == None
  {
    hide Complaint;
    if schema != [] {
      ComplaintsNone(input, schema[1..]);
      assert schema == [schema[0]] + schema[1..];
    }
  }

  /** One definition more: only its own name can gain a value, and only if it had none. */
  lemma HoldsSnoc(resolved: Params, schema: seq<ParamDef>, input: Params, def: ParamDef)
    requires Holds(resolved, schema, input)
    ensures Holds(
              if def.name !in input && OffersDefault(def, def.name) && def.name !in resolved
              then resolved[def.name := def.defaultValue] else resolved,
              schema + [def], input)
  {
    hide DefaultFor;
    var after := if def.name !in input && OffersDefault(def, def.name) && def.name !in resolved
                 then resolved[def.name := def.defaultValue] else resolved;
    forall name ensures Given(after, name) == Settled(schema + [def], input, name) {
      DefaultSnoc(schema, def, name);
      assert Given(resolved, name) == Settled(schema, input, name);
    }
  }

  /** What the schema asks of one parameter: a string, a whole number or a truth value where it says so and anything for
      JSON, if it is given; and that it is given, if it is required. */
  predicate Content(input: Params, def: ParamDef) {
    if def.name !in input then !def.required
    else
      match def.typ
      case StringType => input[def.name].Str?
      case IntType => input[def.name].Int?
      case BoolType => input[def.name].Bool?
      case JsonType => true
  }

  lemma ContentMeaning(input: Params, def: ParamDef)
    ensures Content(input, def) <==> Complaint(input, def) == None
  {
  }

  /** `validateAndResolve`. */
  method ValidateAndResolve(schema: seq<ParamDef>, input: Params) returns (r: ValidationResult)
    ensures r.errors == Complaints(input, schema)
    ensures r.ok <==> forall d <- schema :: Complaint(input, d) == None
    ensures r.ok <==> forall d <- schema :: Content(input, d)
    ensures forall name :: Given(r.resolved, name) == Settled(schema, input, name)
  {
    hide Complaint, DefaultFor;
    var resolved := input;
    var errors: seq<FieldError> := [];
    HoldsAtFirst(input);
    for i := 0 to |schema|
      invariant errors == Complaints(input, schema[..i])
      invariant Holds(resolved, schema[..i], input)
    {
      var def := schema[i];
      assert schema[..i + 1] == schema[..i] + [def];
      ComplaintsSnoc(input, schema[..i], def);
      HoldsSnoc(resolved, schema[..i], input, def);
      ComplaintIs(input, def);
      if def.name !in input {
        if def.required {
          errors := errors + [FieldError(def.name, "required")];
          continue;
        }
        if !def.defaultValue.Null? {
          if def.name !in resolved {
            resolved := resolved[def.name := def.defaultValue];
          }
        }
        continue;
      }
      if !TypeMatches(def.typ, input[def.name]) {
        errors := errors + [FieldError(def.name, "type mismatch")];
      }
    }
    assert schema[..|schema|] == schema;
    ComplaintsNone(input, schema);
    forall d | d in schema ensures Content(input, d) <==> Complaint(input, d) == None {
      ContentMeaning(input, d);
    }
    r := ValidationResult(errors == [], resolved, errors);
  }

  lemma HoldsAtFirst(input: Params)
    ensures Holds(input, [], input)
  {
  }

  lemma ComplaintIs(input: Params, def: ParamDef)
    ensures def.name !in input && def.required ==> Complaint(input, def) == Some(FieldError(def.name, "required"))
    ensures def.name !in input && !def.required ==> Complaint(input, def) == None
    ensures def.name in input && TypeMatches(def.typ, input[def.name]) ==> Complaint(input, def) == None
    ensures def.name in input && !TypeMatches(def.typ, input[def.name]) ==>
              Complaint(input, def) == Some(FieldError(def.name, "type mismatch"))
  {
  }

  /** `name` is given, required, or has a default that is not null. */
  ghost predicate Provided(schema: seq<ParamDef>, input: Params, name: string) {
    name in input || exists d <- schema :: d.name == name && (d.required || !d.defaultValue.Null?)
  }

  lemma {:induction false} DefaultExists(schema: seq<ParamDef>, name: string)
    ensures DefaultFor(schema, name).Some? <==> exists d <- schema :: OffersDefault(d, name)
  {
    if schema != [] {
      DefaultExists(schema[1..], name);
      assert schema == [schema[0]] + schema[1..];
    }
  }

  /** After a clean validation a name has a value exactly when it is provided. */
  lemma SettledExactly(schema: seq<ParamDef>, input: Params, name: string)
    requires forall d <- schema :: Complaint(input, d) == None
    ensures Settled(schema, input, name).Some? <==> Provided(schema, input, name)
  {
    hide DefaultFor;
    DefaultExists(schema, name);
    if name !in input {
      if Provided(schema, input, name) {
        var d :| d in schema && d.name == name && (d.required || !d.defaultValue.Null?);
        assert Complaint(input, d) == None;
        assert OffersDefault(d, name);
      }
    }
  }

  /** A validated template whose paths are all dot-free renders exactly when every name is provided. */
  lemma ValidatedRenders(schema: seq<ParamDef>, input: Params, resolved: Params, show: Printer, node: Json)
    requires forall d <- schema :: Complaint(input, d) == None
    requires forall name :: Given(resolved, name) == Settled(schema, input, name)
    requires forall p <- Paths(node) :: Find(p, ".", 0).None?
    ensures RenderNode(resolved, show, node).Ok? <==> forall p <- Paths(node) :: Provided(schema, input, p)
  {
    hide Find, Settled, ResolvePath, Provided, RenderNode, Complaint;
    RenderSucceedsExactly(resolved, show, node);
    forall p <- Paths(node) ensures ResolvePath(resolved, p).Ok? <==> Provided(schema, input, p) {
      DotFreeKey(resolved, p);
      SettledExactly(schema, input, p);
      assert Given(resolved, p) == Settled(schema, input, p);
    }
  }

  /** The first two steps of `render`: validate, then render with the settled parameters. */
  method ValidateAndRender(schema: seq<ParamDef>, input: Params, show: Printer, node: Json) returns (r: Outcome<Json>)
    ensures (exists d <- schema :: Complaint(input, d).Some?) ==> r == Err(Report(Complaints(input, schema)))
    ensures (forall d <- schema :: Complaint(input, d) == None) ==>
              exists resolved :: Holds(resolved, schema, input) && r == RenderNode(resolved, show, node)
    ensures (forall d <- schema :: Complaint(input, d) == None) &&
            (forall p <- Paths(node) :: Find(p, ".", 0).None?) ==>
              (r.Ok? <==> forall p <- Paths(node) :: Provided(schema, input, p))
  {
    hide Complaint, Find, Settled, ResolvePath, Provided, RenderNode, Paths;
    var v := ValidateAndResolve(schema, input);
    if !v.ok {
      var message := BuildMessage(v.errors);
      return Err(message);
    }
    r := RenderNode(v.resolved, show, node);
    assert Holds(v.resolved, schema, input);
    if forall p <- Paths(node) :: Find(p, ".", 0).None? {
      ValidatedRenders(schema, input, v.resolved, show, node);
    }
  }

  /** The loop that puts the errors together. */
  method BuildMessage(errors: seq<FieldError>) returns (msg: string)
    ensures msg == Report(errors)
  {
    msg := "";
    for i := 0 to |errors|
      invariant msg == Report(errors[..i])
    {
      var e := errors[i];
      ReportSnoc(errors[..i], e);
      assert errors[..i + 1] == errors[..i] + [e];
      if i > 0 {
        msg := msg + "; ";
      }
      msg := msg + e.field;
      msg := msg + ": ";
      msg := msg + e.message;
    }
    assert errors[..|errors|] == errors;
  }

  lemma {:induction false} ReportSnoc(errors: seq<FieldError>, e: FieldError)
    ensures Report(errors + [e]) ==
              if errors == [] then e.field + ": " + e.message else Report(errors) + "; " + e.field + ": " + e.message
  {
    var text := e.field + ": " + e.message;
    if errors == [] {
      assert errors + [e] == [e] && [e][1..] == [];
      assert text + "" + "" == text;
    } else {
      assert (errors + [e])[1..] == errors[1..] + [e] && (errors + [e])[0] == errors[0];
      ReportSnoc(errors[1..], e);
      var first := errors[0].field + ": " + errors[0].message;
      if |errors| == 1 {
        assert errors[1..] == [] && first + "" + "" == first;
        assert Report(errors + [e]) == first + "; " + text;
        assert first + "; " + text == first + "; " + e.field + ": " + e.message;
      } else {
        assert errors[1..] != [];
        var rest := Report(errors[1..]);
        assert first + "; " + (rest + "; " + e.field + ": " + e.message) ==
               first + "; " + rest + "; " + e.field + ": " + e.message;
      }
    }
  }

  function Report(errors: seq<FieldError>): string {
    if errors == [] then ""
    else errors[0].field + ": " + errors[0].message + (if |errors| > 1 then "; " else "") + Report(errors[1..])
  }
}
