/**
 * The request options of the configuration API (`_getConfigInfoOptions`, `configDku`,
 * `configResolve`). Options objects are dictionaries of JavaScript values; the query and
 * initials option builders (`_getQueryOptions`, `_getInitialsOptions`) are passed in as
 * functions the model does not look into.
 */
module ApiConfig {
  import opened Wrappers
  import opened Dicts

  /** The JavaScript values an options object holds. */
  datatype JsValue =
    | Undefined
    | Null
    | Bool(b: bool)
    | Num(n: real)
    | Str(s: string)
    | Obj(fields: Dict<JsValue>)

  type Options = Dict<JsValue>

  /** JavaScript truthiness (NaN is not a value of the model). */
  predicate Truthy(v: JsValue)
  {
    match v
    case Undefined => false
    case Null => false
    case Bool(b) => b
    case Num(n) => n != 0.0
    case Str(s) => s != ""
    case Obj(_) => true
  }

  predicate Nullish(v: JsValue)
  {
    v == Undefined || v == Null
  }

  /** `o[k]`: a missing key reads as `undefined`. */
  function Prop(o: Options, k: string): (r: JsValue)
    ensures !Has(o, k) ==> r == Undefined
    ensures Has(o, k) ==> Get(o, k) == Some(r)
  {
    match Get(o, k)
    case None => Undefined
    case Some(v) => v
  }

  /**
   * `value.k = x`: an object gains or overwrites the key; on any other value the assignment has
   * no effect (the file is not in strict mode).
   */
  function SetProp(value: JsValue, k: string, x: JsValue): (r: JsValue)
    ensures value.Obj? ==> r.Obj? && Get(r.fields, k) == Some(x)
    ensures value.Obj? ==> forall k' :: k' != k ==> Get(r.fields, k') == Get(value.fields, k')
    ensures !value.Obj? ==> r == value
  {
    if value.Obj? then
      var fields := Put(value.fields, k, x);
      assert forall k' :: Get(fields, k') == if k' == k then Some(x) else Get(value.fields, k') by {
        forall k' ensures Get(fields, k') == if k' == k then Some(x) else Get(value.fields, k') {
          GetPut(value.fields, k, x, k');
        }
      }
      Obj(fields)
    else value
  }

  /**
   * Reading back what `value.k = x` wrote: on an object the key reads `x` and every other key
   * reads as before; on any other value nothing was written.
   */
  lemma PropSetProp(value: JsValue, k: string, x: JsValue, other: string)
    ensures value.Obj? ==> Prop(SetProp(value, k, x).fields, k) == x
    ensures value.Obj? && other != k ==> Prop(SetProp(value, k, x).fields, other) == Prop(value.fields, other)
    ensures !value.Obj? ==> !SetProp(value, k, x).Obj?
  {
    if value.Obj? {
      var r := SetProp(value, k, x);
      assert Get(r.fields, k) == Some(x);
    }
  }

  /** `options.flag === undefined ? true : options.flag`, read for truthiness. */
  predicate FlagOn(options: Options, flag: string)
  {
    var v := Prop(options, flag);
    v == Undefined || Truthy(v)
  }

  /** The options after the query and initials builders ran, each only when its flag allows. */
  function Prepared(options: Options, queryOptionsOf: Options -> Options, initialsOptionsOf: Options -> Options): Options
  {
    var afterQuery := if FlagOn(options, "queryOptions") then queryOptionsOf(options) else options;
    if FlagOn(options, "initialsOptions") then initialsOptionsOf(afterQuery) else afterQuery
  }

  /** `options.guess === undefined ? this.guess : options.guess`. */
  function GuessOf(options: Options, instanceGuess: JsValue): JsValue
  {
    if Prop(options, "guess") == Undefined then instanceGuess else Prop(options, "guess")
  }

  /** The value `params` refers to: the prepared options' object when truthy, a fresh `{}` otherwise. */
  function ParamsBase(prepared: Options): JsValue
  {
    if Truthy(Prop(prepared, "params")) then Prop(prepared, "params") else Obj([])
  }

  /**
   * The `params` object after `_getConfigInfoOptions` wrote into it: `dku` when given (neither
   * `null` nor `undefined`), `guess` as "1" or "0" when known; nothing else changes.
   */
  function FinalParams(base: JsValue, dku: JsValue, guess: JsValue): (r: JsValue)
    ensures Truthy(base) ==> Truthy(r)
    ensures base.Obj? <==> r.Obj?
    ensures !base.Obj? ==> r == base
    ensures r.Obj? ==> forall k :: k != "dku" && k != "guess" ==> Get(r.fields, k) == Get(base.fields, k)
    ensures r.Obj? ==> Get(r.fields, "dku") == (if Nullish(dku) then Get(base.fields, "dku") else Some(dku))
    ensures r.Obj? ==>
      (Get(r.fields, "guess") == if Nullish(guess) then Get(base.fields, "guess") else Some(Str(if Truthy(guess) then "1" else "0")))
  {
    var withDku := if !Nullish(dku) then SetProp(base, "dku", dku) else base;
    if !Nullish(guess) then SetProp(withDku, "guess", Str(if Truthy(guess) then "1" else "0")) else withDku
  }

  /**
   * `_getConfigInfoOptions(options)`. The result carries `url = base + "config/info"`,
   * `method = "GET"` and the `params` object: the one the (prepared) options already had when
   * it was truthy, else a new one, written as `FinalParams` says. Every other key of the
   * prepared options is kept.
   */
  method GetConfigInfoOptions(
    baseUrl: string, instanceGuess: JsValue, options: Options,
    queryOptionsOf: Options -> Options, initialsOptionsOf: Options -> Options)
    returns (result: Options)
    ensures Prop(result, "url") == Str(baseUrl + "config/info")
    ensures Prop(result, "method") == Str("GET")
    ensures Prop(result, "params") ==
      FinalParams(ParamsBase(Prepared(options, queryOptionsOf, initialsOptionsOf)), Prop(options, "dku"), GuessOf(options, instanceGuess))
    ensures forall k :: k != "url" && k != "method" && k != "params" ==>
      Prop(result, k) == Prop(Prepared(options, queryOptionsOf, initialsOptionsOf), k)
  {
    var dku := if Prop(options, "dku") == Undefined then Null else Prop(options, "dku");
    var guess := GuessOf(options, instanceGuess);
    var queryOptions := if Prop(options, "queryOptions") == Undefined then Bool(true) else Prop(options, "queryOptions");
    var initialsOptions := if Prop(options, "initialsOptions") == Undefined then Bool(true) else Prop(options, "initialsOptions");

    var current := options;
    if Truthy(queryOptions) {
      current := queryOptionsOf(current);
    }
    ghost var afterQuery := current;
    if Truthy(initialsOptions) {
      current := initialsOptionsOf(current);
    }
    ghost var prepared := current;
    PreparedSteps(options, queryOptionsOf, initialsOptionsOf, queryOptions, initialsOptions, afterQuery, prepared);

    var params := if Truthy(Prop(current, "params")) then Prop(current, "params") else Obj([]);
    assert params == ParamsBase(prepared);
    current := Put(current, "params", params);

    var withDku := params;
    if !Nullish(dku) {
      withDku := SetProp(withDku, "dku", dku);
    }
    var finalParams := withDku;
    if !Nullish(guess) {
      finalParams := SetProp(finalParams, "guess", Str(if Truthy(guess) then "1" else "0"));
    }
    WrittenParams(params, dku, Prop(options, "dku"), guess, withDku, finalParams);

    result := Assign(current, InfoFields(baseUrl + "config/info", finalParams));
    AssignInfo(prepared, params, baseUrl + "config/info", finalParams);
  }

  /** The two guarded builder calls of `_getConfigInfoOptions` compute `Prepared`. */
  lemma PreparedSteps(
    options: Options, queryOptionsOf: Options -> Options, initialsOptionsOf: Options -> Options,
    queryOptions: JsValue, initialsOptions: JsValue, afterQuery: Options, prepared: Options)
    requires queryOptions == if Prop(options, "queryOptions") == Undefined then Bool(true) else Prop(options, "queryOptions")
    requires initialsOptions == if Prop(options, "initialsOptions") == Undefined then Bool(true) else Prop(options, "initialsOptions")
    requires afterQuery == if Truthy(queryOptions) then queryOptionsOf(options) else options
    requires prepared == if Truthy(initialsOptions) then initialsOptionsOf(afterQuery) else afterQuery
    ensures prepared == Prepared(options, queryOptionsOf, initialsOptionsOf)
  {
  }

  /** The two conditional writes of `_getConfigInfoOptions` compute `FinalParams`. */
  lemma WrittenParams(base: JsValue, dku: JsValue, given: JsValue, guess: JsValue, withDku: JsValue, finalParams: JsValue)
    requires dku == if given == Undefined then Null else given
    requires withDku == if !Nullish(dku) then SetProp(base, "dku", dku) else base
    requires finalParams == if !Nullish(guess) then SetProp(withDku, "guess", Str(if Truthy(guess) then "1" else "0")) else withDku
    ensures finalParams == FinalParams(base, given, guess)
  {
  }

  /** Writing `{url, method, params}` over the options leaves their other keys as they were. */
  lemma AssignInfo(prepared: Options, base: JsValue, url: string, params: JsValue)
    ensures var result := Assign(Put(prepared, "params", base), InfoFields(url, params));
      Prop(result, "url") == Str(url) && Prop(result, "method") == Str("GET") && Prop(result, "params") == params
      && forall k :: k != "url" && k != "method" && k != "params" ==> Prop(result, k) == Prop(prepared, k)
  {
    var current := Put(prepared, "params", base);
    var source := InfoFields(url, params);
    var result := Assign(current, source);
    GetAssign(current, source, "url");
    GetAssign(current, source, "method");
    GetAssign(current, source, "params");
    forall k | k != "url" && k != "method" && k != "params"
      ensures Prop(result, k) == Prop(prepared, k)
    {
      GetAssign(current, source, k);
      GetPut(prepared, "params", base, k);
    }
  }

  /** The object literal `{url: url, method: "GET", params: params}`. */
  function InfoFields(url: string, params: JsValue): (d: Options)
    ensures Wf(d) && Keys(d) == ["url", "method", "params"]
    ensures Get(d, "url") == Some(Str(url))
    ensures Get(d, "method") == Some(Str("GET"))
    ensures Get(d, "params") == Some(params)
  {
    var d := [("url", Str(url)), ("method", Str("GET")), ("params", params)];
    assert d[1..] == [("method", Str("GET")), ("params", params)];
    assert d[1..][1..] == [("params", params)];
    assert "url" != "method" && "url" != "params" && "method" != "params";
    assert Get(d[1..][1..], "params") == Some(params);
    assert Get(d[1..], "params") == Some(params);
    assert Keys(d[1..][1..]) == ["params"];
    assert Keys(d[1..]) == ["method", "params"];
    d
  }

  /** The object literal `{dku: dku, queryOptions: false, initialsOptions: false}`. */
  function DkuDefaults(dku: JsValue): (d: Options)
    ensures Get(d, "dku") == Some(dku)
    ensures Get(d, "queryOptions") == Some(Bool(false))
    ensures Get(d, "initialsOptions") == Some(Bool(false))
  {
    var d := [("dku", dku), ("queryOptions", Bool(false)), ("initialsOptions", Bool(false))];
    assert d[1..] == [("queryOptions", Bool(false)), ("initialsOptions", Bool(false))];
    assert d[1..][1..] == [("initialsOptions", Bool(false))];
    assert "dku" != "queryOptions" && "dku" != "initialsOptions" && "queryOptions" != "initialsOptions";
    assert Get(d[1..][1..], "initialsOptions") == Some(Bool(false));
    assert Get(d[1..], "initialsOptions") == Some(Bool(false));
    d
  }

  /**
   * `configDku(dku, options)`: `Object.assign({dku, queryOptions: false, initialsOptions: false},
   * options)`. The caller's keys win; the three defaults stand for the keys the caller left out.
   */
  function ConfigDkuOptions(dku: JsValue, options: Options): (r: Options)
    requires Wf(options)
    ensures forall k :: Has(options, k) ==> Get(r, k) == Get(options, k)
    ensures !Has(options, "dku") ==> Get(r, "dku") == Some(dku)
    ensures !Has(options, "queryOptions") ==> Get(r, "queryOptions") == Some(Bool(false))
    ensures !Has(options, "initialsOptions") ==> Get(r, "initialsOptions") == Some(Bool(false))
  {
    var defaults := DkuDefaults(dku);
    var r := Assign(defaults, options);
    assert forall k :: Get(r, k) == if Has(options, k) then Get(options, k) else Get(defaults, k) by {
      forall k ensures Get(r, k) == if Has(options, k) then Get(options, k) else Get(defaults, k) {
        GetAssign(defaults, options, k);
      }
    }
    r
  }

  /** With neither flag supplied by the caller, `configDku` runs neither option builder. */
  lemma DkuSkipsBuilders(dku: JsValue, options: Options, queryOptionsOf: Options -> Options, initialsOptionsOf: Options -> Options)
    requires Wf(options) && !Has(options, "queryOptions") && !Has(options, "initialsOptions")
    ensures var o := ConfigDkuOptions(dku, options);
      Prepared(o, queryOptionsOf, initialsOptionsOf) == o
  {
    var o := ConfigDkuOptions(dku, options);
    assert Prop(o, "queryOptions") == Bool(false);
    assert Prop(o, "initialsOptions") == Bool(false);
  }

  /** `configResolve(productId, options)`: the resolve URL unless the caller supplies `url`. */
  function ConfigResolveOptions(baseUrl: string, productId: string, options: Options): (r: Options)
    requires Wf(options)
    ensures Has(options, "url") ==> Get(r, "url") == Get(options, "url")
    ensures !Has(options, "url") ==> Get(r, "url") == Some(Str(baseUrl + "config/resolve/" + productId))
    ensures forall k :: k != "url" ==> Get(r, k) == Get(options, k)
  {
    var defaults := [("url", Str(baseUrl + "config/resolve/" + productId))];
    assert forall k :: k != "url" ==> Get(defaults, k) == None;
    var r := Assign(defaults, options);
    assert forall k :: Get(r, k) == if Has(options, k) then Get(options, k) else Get(defaults, k) by {
      forall k ensures Get(r, k) == if Has(options, k) then Get(options, k) else Get(defaults, k) {
        GetAssign(defaults, options, k);
      }
    }
    r
  }
}
