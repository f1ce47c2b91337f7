/**
 * The leaf predicate of a filter: a `key operator value` triple with its own
 * validation and rendering hooks (`Expression` in src/expression.ts).
 *
 * Keys, operators and values are strings. The value is opaque: the default
 * value renderer emits it unchanged.
 */
module Expressions {
  import opened Wrappers

  /** The names of the built-in comparison operators (`OPERATOR`). */
  const OperatorNames: seq<string> :=
    ["eq", "neq", "gt", "gte", "lt", "lte", "like", "nlike", "match", "nmatch",
     "is", "nis", "in", "nin", "ltree"]

  /** The built-in operator-to-symbol table, targeting the PostgreSQL dialect (`OPERATOR_SYMBOL`). */
  const OperatorSymbol: map<string, string> := map[
    "eq" := "=",
    "neq" := "!=",
    "gt" := ">",
    "gte" := ">=",
    "lt" := "<",
    "lte" := "<=",
    "like" := " ilike ",
    "nlike" := " not ilike ",
    "match" := "~*",
    "nmatch" := "!~*",
    "is" := " is ",
    "nis" := " is not ",
    "in" := " in ",
    "nin" := " not in ",
    "ltree" := "~"
  ]

  /** The data every hook receives: `{key, operator, value}`. */
  datatype Context = Context(key: string, operator: string, value: string)

  /** A validator accepts (true) or throws (false). */
  type Validator = Context -> bool
  type Renderer = Context -> string
  /** A renderer that may give a falsy answer: None stands for null, undefined or false. */
  type RendererMaybe = Context -> Option<string>

  /** A hook set; every hook is optional. */
  datatype Options = Options(
    validate: Option<Validator>,
    renderKey: Option<Renderer>,
    renderValue: Option<Renderer>,
    renderOperator: Option<Renderer>,
    renderExpression: Option<RendererMaybe>)

  /** The empty hook set `{}`. */
  const NoOptions: Options := Options(None, None, None, None, None)

  /** No rendering hook is set (a validator does not matter for rendering). */
  predicate NoRenderHooks(o: Options) {
    o.renderKey.None? && o.renderValue.None? && o.renderOperator.None? && o.renderExpression.None?
  }

  /** No hook of any kind is set: the hook set `{}` up to absent fields. */
  predicate NoHooks(o: Options) {
    o.validate.None? && NoRenderHooks(o)
  }

  datatype Expression = Expression(key: string, operator: string, value: string, options: Options) {
    /** The canonical snapshot `{key, operator, value}`. */
    function ToJSON(): Context {
      Context(key, operator, value)
    }
  }

  /** The hook set's validator, if any, accepts the context. */
  predicate Accepts(options: Options, ctx: Context) {
    options.validate.None? || options.validate.value(ctx)
  }

  /**
   * The constructor: stores the fields, then runs `validate` once on
   * `{key, operator, value}`; a rejection means no expression is produced.
   */
  function NewExpression(key: string, operator: string, value: string, options: Options): (r: Result<Expression>)
    ensures r.Ok? <==> Accepts(options, Context(key, operator, value))
    ensures r.Ok? ==> r.value.ToJSON() == Context(key, operator, value) && r.value.options == options
    ensures r.Err? ==> r.error == ValidationFailed
  {
    var e := Expression(key, operator, value, options);
    if Accepts(options, e.ToJSON()) then Ok(e) else Err(ValidationFailed)
  }

  /** One field of `{...instance, ...callSite}`: a call-site hook shadows the instance hook. */
  function Override<T>(callSite: Option<T>, instance: Option<T>): Option<T> {
    if callSite.Some? then callSite else instance
  }

  /** The object spread `{...instance, ...callSite}` over the rendering hooks. */
  function Merge(instance: Options, callSite: Options): Options {
    Options(
      Override(callSite.validate, instance.validate),
      Override(callSite.renderKey, instance.renderKey),
      Override(callSite.renderValue, instance.renderValue),
      Override(callSite.renderOperator, instance.renderOperator),
      Override(callSite.renderExpression, instance.renderExpression))
  }

  /** `hook ??= default`. */
  function OrDefault(hook: Option<Renderer>, default: Renderer): Renderer {
    if hook.Some? then hook.value else default
  }

  /** The symbol of an operator: the table entry when it is a non-empty string, else the raw operator. */
  function Symbol(operator: string): (s: string)
    ensures operator in OperatorSymbol ==> s == OperatorSymbol[operator]
    ensures operator !in OperatorSymbol ==> s == operator
  {
    if operator in OperatorSymbol && OperatorSymbol[operator] != "" then OperatorSymbol[operator] else operator
  }

  function DefaultKey(ctx: Context): string { ctx.key }
  function DefaultOperator(ctx: Context): string { Symbol(ctx.operator) }
  function DefaultValue(ctx: Context): string { ctx.value }

  /** JavaScript truthiness of a `renderExpression` answer. */
  predicate Truthy(answer: Option<string>) {
    answer.Some? && answer.value != ""
  }

  /**
   * `toString(options)`: merge the hooks, let a truthy `renderExpression`
   * answer win, and otherwise concatenate key, operator and value renderings.
   */
  function Show(e: Expression, callSite: Options): (r: string)
    ensures var h := Override(callSite.renderExpression, e.options.renderExpression);
            h.Some? && Truthy(h.value(e.ToJSON())) ==> r == h.value(e.ToJSON()).value
    ensures NoRenderHooks(e.options) && NoRenderHooks(callSite) ==> r == e.key + Symbol(e.operator) + e.value
  {
    var m := Merge(e.options, callSite);
    var ctx := e.ToJSON();
    if m.renderExpression.Some? && Truthy(m.renderExpression.value(ctx)) then
      m.renderExpression.value(ctx).value
    else
      OrDefault(m.renderKey, DefaultKey)(ctx)
      + OrDefault(m.renderOperator, DefaultOperator)(ctx)
      + OrDefault(m.renderValue, DefaultValue)(ctx)
  }

  /** The three-tier resolution chain: call site, then instance, then built-in default. */
  function Resolve<T>(callSite: Option<T>, instance: Option<T>, default: T): T {
    match callSite
    case Some(h) => h
    case None => (match instance case Some(h) => h case None => default)
  }

  // ---------------------------------------------------------------------------
  // Properties

  /** The operator table has exactly the 15 built-in names as keys, and every symbol is non-empty. */
  lemma SymbolTableShape()
    ensures OperatorSymbol.Keys == set name | name in OperatorNames
    ensures forall name :: name in OperatorSymbol ==> OperatorSymbol[name] != ""
  {
  }

  /** The snapshot does not depend on the hooks. */
  lemma ToJSONIgnoresOptions(e: Expression, other: Options)
    ensures e.(options := other).ToJSON() == e.ToJSON()
    ensures e.ToJSON() == Context(e.key, e.operator, e.value)
  {
  }

  /**
   * When `renderExpression` does not give a truthy answer, every hook is
   * resolved along the chain call site, instance, built-in default.
   */
  lemma ShowIsLayered(e: Expression, callSite: Options)
    requires var h := Override(callSite.renderExpression, e.options.renderExpression);
             h.None? || !Truthy(h.value(e.ToJSON()))
    ensures var ctx := e.ToJSON();
            Show(e, callSite)
            == Resolve(callSite.renderKey, e.options.renderKey, DefaultKey)(ctx)
               + Resolve(callSite.renderOperator, e.options.renderOperator, DefaultOperator)(ctx)
               + Resolve(callSite.renderValue, e.options.renderValue, DefaultValue)(ctx)
  {
  }

  /** A truthy `renderExpression` answer is the whole result. */
  lemma ShowShortCircuits(e: Expression, callSite: Options, s: string)
    requires var h := Override(callSite.renderExpression, e.options.renderExpression);
             h.Some? && h.value(e.ToJSON()) == Some(s)
    requires s != ""
    ensures Show(e, callSite) == s
  {
  }

  /** A falsy `renderExpression` answer is as if no such hook were set. */
  lemma ShowFalsyFallsThrough(e: Expression, callSite: Options)
    requires var h := Override(callSite.renderExpression, e.options.renderExpression);
             h.Some? && !Truthy(h.value(e.ToJSON()))
    ensures Show(e, callSite)
            == Show(e.(options := e.options.(renderExpression := None)), callSite.(renderExpression := None))
  {
  }

  /** Hooks given at the call site for every rendering role mask the instance hooks entirely. */
  lemma CallSiteMasksInstance(e: Expression, callSite: Options, instance: Options)
    requires callSite.renderKey.Some? && callSite.renderValue.Some?
    requires callSite.renderOperator.Some? && callSite.renderExpression.Some?
    ensures Show(e.(options := instance), callSite) == Show(e, callSite)
  {
  }

  /** Instance hooks act exactly as the same hooks given at the call site of a hook-less expression. */
  lemma InstanceHooksActAsCallSite(e: Expression)
    ensures Show(e, NoOptions) == Show(e.(options := NoOptions), e.options)
  {
  }

  /** With no rendering hooks anywhere the result is key, symbol and value with no separators. */
  lemma ShowDefaults(e: Expression, callSite: Options)
    requires NoRenderHooks(e.options) && NoRenderHooks(callSite)
    ensures Show(e, callSite) == e.key + Symbol(e.operator) + e.value
    ensures e.operator !in OperatorSymbol ==> Show(e, callSite) == e.key + e.operator + e.value
  {
  }

  /** Default renderings of known and unknown operators. */
  lemma ShowExamples()
    ensures Show(Expression("foo", "eq", "bar", NoOptions), NoOptions) == "foo=bar"
    ensures Show(Expression("foo", "like", "bar", NoOptions), NoOptions) == "foo ilike bar"
    ensures Show(Expression("foo", "match", "bar", NoOptions), NoOptions) == "foo~*bar"
    ensures Show(Expression("foo", "nis", "bar", NoOptions), NoOptions) == "foo is not bar"
    ensures Show(Expression("foo", "==", "bar", NoOptions), NoOptions) == "foo==bar"
  {
    ShowEq();
    ShowLike();
    ShowMatch();
    ShowNis();
    ShowUnknown();
  }

  lemma ShowEq()
    ensures Show(Expression("foo", "eq", "bar", NoOptions), NoOptions) == "foo=bar"
  {
  }

  lemma ShowLike()
    ensures Show(Expression("foo", "like", "bar", NoOptions), NoOptions) == "foo ilike bar"
  {
  }

  lemma ShowMatch()
    ensures Show(Expression("foo", "match", "bar", NoOptions), NoOptions) == "foo~*bar"
  {
  }

  lemma ShowNis()
    ensures Show(Expression("foo", "nis", "bar", NoOptions), NoOptions) == "foo is not bar"
  {
  }

  /** An operator outside the table renders as itself. */
  lemma ShowUnknown()
    ensures Show(Expression("foo", "==", "bar", NoOptions), NoOptions) == "foo==bar"
  {
    assert "==" !in OperatorSymbol;
  }

  /** A validator that only accepts the key "foo" lets "foo" through and rejects "baz". */
  lemma ValidationExample()
    ensures var o := NoOptions.(validate := Some((c: Context) => c.key == "foo"));
            NewExpression("foo", "eq", "bar", o).Ok? && NewExpression("baz", "neq", "bat", o) == Err(ValidationFailed)
  {
  }
}
