/**
 * Template fields (src/template.rs).  The liquid engine is an oracle:
 * `render` maps a template string, against the engine's fixed globals,
 * to the rendered string or a rendering error.  Being a value, the engine
 * cannot be changed by rendering.
 */
module Templates {
  import opened Wrappers
  import opened Order
  import opened Failures

  /** String-templating engine for staging fields. */
  datatype TemplateEngine = TemplateEngine(render: string -> Result<string, Failure>)

  /** Stager field that is a single template string. */
  datatype Template = Template(text: string)

  /** `Template::format`: render exactly the wrapped string. */
  function Format(t: Template, engine: TemplateEngine): (r: Result<string, Failure>)
    ensures r == engine.render(t.text)
  {
    engine.render(t.text)
  }

  /** The derived `Ord` of `Template`: the order of the wrapped strings. */
  predicate TemplateLess(a: Template, b: Template)
  {
    StringLess(a.text, b.text)
  }

  /** Templates are totally and strictly ordered, as the key of a `BTreeMap` must be. */
  lemma TemplateOrder(a: Template, b: Template, c: Template)
    ensures a == b || TemplateLess(a, b) || TemplateLess(b, a)
    ensures !TemplateLess(a, a)
    ensures TemplateLess(a, b) && TemplateLess(b, c) ==> TemplateLess(a, c)
  {
    StringLessTotal(a.text, b.text);
    StringLessIrreflexive(a.text);
    if TemplateLess(a, b) && TemplateLess(b, c) {
      StringLessTransitive(a.text, b.text, c.text);
    }
  }

  /** Stager field that is logically a sequence of templates but can be shortened to a single value. */
  datatype OneOrMany = One(item: Template) | Many(items: seq<Template>)

  /**
   * Render each template in order, stopping at the first failure
   * (`collect` into a `Result`).
   */
  function FormatAll(ts: seq<Template>, engine: TemplateEngine): (r: Result<seq<string>, Failure>)
    ensures r.Ok? <==> forall i :: 0 <= i < |ts| ==> Format(ts[i], engine).Ok?
    ensures r.Ok? ==> |r.value| == |ts|
    ensures r.Ok? ==> forall i :: 0 <= i < |ts| ==> r.value[i] == Format(ts[i], engine).value
    ensures r.Err? ==>
              exists j :: (0 <= j < |ts| && Format(ts[j], engine) == Err(r.error)
                           && forall i :: 0 <= i < j ==> Format(ts[i], engine).Ok?)
  {
    if ts == [] then Ok([])
    else
      match Format(ts[0], engine)
      case Err(e) => Err(e)
      case Ok(s) =>
        match FormatAll(ts[1..], engine)
        case Err(e) =>
          var j :| 0 <= j < |ts| - 1 && Format(ts[1..][j], engine) == Err(e)
            && forall i :: 0 <= i < j ==> Format(ts[1..][i], engine).Ok?;
          assert Format(ts[j + 1], engine) == Err(e);
          assert forall i :: 1 <= i < j + 1 ==> Format(ts[i], engine) == Format(ts[1..][i - 1], engine);
          Err(e)
        case Ok(rest) =>
          assert forall i :: 1 <= i < |ts| ==> ts[i] == ts[1..][i - 1];
          Ok([s] + rest)
  }

  /** `OneOrMany::format`: a single template becomes a singleton list. */
  function FormatOneOrMany(v: OneOrMany, engine: TemplateEngine): (r: Result<seq<string>, Failure>)
    ensures v.One? ==> r == (match Format(v.item, engine) case Ok(s) => Ok([s]) case Err(e) => Err(e))
    ensures v.Many? ==> r == FormatAll(v.items, engine)
  {
    match v
    case One(t) =>
      (match Format(t, engine)
       case Ok(s) => Ok([s])
       case Err(e) => Err(e))
    case Many(ts) => FormatAll(ts, engine)
  }

  /** The single form renders exactly like the one-element list form. */
  lemma OneIsSingletonMany(t: Template, engine: TemplateEngine)
    ensures FormatOneOrMany(One(t), engine) == FormatOneOrMany(Many([t]), engine)
  {
    assert [t][1..] == [];
    assert FormatAll([], engine) == Ok([]);
    match Format(t, engine)
    case Ok(s) =>
      assert [s] + [] == [s];
      assert FormatAll([t], engine) == Ok([s] + []);
    case Err(e) =>
  }
}
