/** `src/utils/requestExecutor.ts`: building an HTTP request from a request
    descriptor and the form values. The URL, query values, header values
    and body strings are substituted with `{{\w+}}` tokens in command
    mode; the transport (`fetch`, the abort timer) is not modelled. The
    query encoder (`URLSearchParams`) and `JSON.stringify` are parameters.
    The encoder is any function of the pairs, which is more general than
    `URLSearchParams`; a statement that depends on the empty query
    requires it to give "" for no pairs, as `URLSearchParams` does. */
module RequestExecutor {
  import opened Js
  import opened PromptTypes
  import opened Placeholders
  import VariableReplacer
  import ValueConverter

  /** The replace callback of `replaceVariables`. */
  function VariableText(values: PromptValues, visible: set<string>, inputs: seq<PromptInput>, name: string): string
  {
    VariableReplacer.UserVariableText(values, visible, inputs,
      (v: Value, c: Option<PromptInput>) => ValueConverter.ValueToCommandString(v, c), name)
  }

  /** `replaceVariables`: one `{{\w+}}` pass in command mode. */
  function ReplaceVariables(template: string, values: PromptValues, visible: set<string>, inputs: seq<PromptInput>): string
  {
    Substitute(Word, template, n => VariableText(values, visible, inputs, n))
  }

  /** A token alone: hidden or missing names give "", otherwise command-mode
      conversion with the last field of that id. */
  lemma ReplaceVariablesToken(name: string, values: PromptValues, visible: set<string>, inputs: seq<PromptInput>)
    requires IsName(Word, name)
    ensures name !in visible || name !in values ==> ReplaceVariables("{{" + name + "}}", values, visible, inputs) == ""
    ensures name in visible && name in values ==>
      ReplaceVariables("{{" + name + "}}", values, visible, inputs) ==
        ValueConverter.ValueToCommandString(values[name], VariableReplacer.LastById(inputs, name))
  {
    assert "{{" + name + "}}" == "{{" + name + "}}" + "";
    TokenThenRest(Word, name, "", n => VariableText(values, visible, inputs, n));
  }

  /** On text without `-` this is `replaceUserVariables` in command mode;
      `{{a-b}}` is where they part. */
  lemma AgreesWithUserVariables(template: string, values: PromptValues, visible: set<string>, inputs: seq<PromptInput>)
    requires '-' !in template
    ensures ReplaceVariables(template, values, visible, inputs) ==
      VariableReplacer.UserVariables(template, values, visible, inputs,
        (v: Value, c: Option<PromptInput>) => ValueConverter.ValueToCommandString(v, c))
  {
    var f := n => VariableText(values, visible, inputs, n);
    GrammarsAgreeWithoutHyphen(template, f);
    SubstituteCongruent(WordOrHyphen, template, f,
      n => VariableReplacer.UserVariableText(values, visible, inputs,
        (v: Value, c: Option<PromptInput>) => ValueConverter.ValueToCommandString(v, c), n));
  }

  // ------------------------------------------------------ object substitution

  /** `replaceObjectVariables` on one value: strings are substituted, plain
      objects are recursed into, everything else (arrays, numbers, booleans,
      null) is copied. */
  function SubstValue(v: JsValue, f: string -> string): (r: JsValue)
    ensures !v.Str? && !v.Obj? ==> r == v
    ensures v.Str? ==> r == Str(f(v.s))
    ensures v.Obj? ==> (r.Obj? && |r.fields| == |v.fields| &&
      forall i :: 0 <= i < |v.fields| ==> r.fields[i].0 == v.fields[i].0)
    decreases v, 1
  {
    match v
    case Str(s) => Str(f(s))
    case Obj(fields) => Obj(SubstFields(v, f))
    case _ => v
  }

  function SubstFields(obj: JsValue, f: string -> string): (r: seq<(string, JsValue)>)
    requires obj.Obj?
    ensures |r| == |obj.fields|
    ensures forall i :: 0 <= i < |r| ==> r[i].0 == obj.fields[i].0
    decreases obj, 0
  {
    seq(|obj.fields|, i requires 0 <= i < |obj.fields| => (obj.fields[i].0, SubstValue(obj.fields[i].1, f)))
  }

  /** `replaceObjectVariables`: a loop over the entries that recurses into
      nested objects. */
  method ReplaceObjectVariables(obj: JsValue, values: PromptValues, visible: set<string>, inputs: seq<PromptInput>)
    returns (result: JsValue)
    requires obj.Obj?
    ensures result == SubstValue(obj, s => ReplaceVariables(s, values, visible, inputs))
    decreases obj
  {
    var f := s => ReplaceVariables(s, values, visible, inputs);
    var fields: seq<(string, JsValue)> := [];
    var i := 0;
    while i < |obj.fields|
      invariant 0 <= i <= |obj.fields|
      invariant |fields| == i
      invariant forall j :: 0 <= j < i ==> fields[j] == (obj.fields[j].0, SubstValue(obj.fields[j].1, f))
    {
      var (key, value) := obj.fields[i];
      if value.Str? {
        fields := fields + [(key, Str(ReplaceVariables(value.s, values, visible, inputs)))];
      } else if value.Obj? {
        var nested := ReplaceObjectVariables(value, values, visible, inputs);
        fields := fields + [(key, nested)];
      } else {
        fields := fields + [(key, value)];
      }
      i := i + 1;
    }
    result := Obj(fields);
    assert fields == SubstFields(obj, f);
  }

  /** A substitution that changes no string changes nothing. */
  lemma {:induction false} SubstIdentity(v: JsValue, f: string -> string)
    requires forall s :: f(s) == s
    ensures SubstValue(v, f) == v
    decreases v
  {
    if v.Obj? {
      forall i | 0 <= i < |v.fields| ensures SubstFields(v, f)[i] == v.fields[i] {
        SubstIdentity(v.fields[i].1, f);
      }
    }
  }

  /** Substituting twice is substituting once with the composition. */
  lemma {:induction false} SubstCompose(v: JsValue, f: string -> string, g: string -> string)
    ensures SubstValue(SubstValue(v, f), g) == SubstValue(v, s => g(f(s)))
    decreases v
  {
    if v.Obj? {
      var h := s => g(f(s));
      var once := SubstValue(v, f);
      assert once == Obj(SubstFields(v, f));
      forall i | 0 <= i < |v.fields|
        ensures SubstFields(once, g)[i] == SubstFields(v, h)[i]
      {
        assert once.fields[i] == (v.fields[i].0, SubstValue(v.fields[i].1, f));
        SubstCompose(v.fields[i].1, f, g);
      }
      assert SubstFields(once, g) == SubstFields(v, h);
    }
  }

  // ------------------------------------------------------------- assembly

  /** The query entries after substitution, each as the string
      `String(value)` gives. */
  function QueryPairs(query: seq<(string, QueryValue)>, f: string -> string): (r: seq<(string, string)>)
    ensures |r| == |query|
    ensures forall i :: 0 <= i < |query| ==> r[i].0 == query[i].0
    ensures forall i :: 0 <= i < |query| ==> r[i].1 == (match query[i].1
      case QStr(s) => f(s)
      case QNum(n) => IntToString(n)
      case QBool(b) => BoolToString(b))
  {
    seq(|query|, i requires 0 <= i < |query| => (query[i].0, match query[i].1
      case QStr(s) => f(s)
      case QNum(n) => IntToString(n)
      case QBool(b) => BoolToString(b)))
  }

  /** Appending an encoded query string: "&" when the URL already has a
      "?", else "?", and nothing at all for an empty query string. */
  function WithQuery(url: string, queryString: string): (r: string)
    ensures queryString == "" ==> r == url
    ensures queryString != "" ==> r == url + (if Contains(url, "?") then "&" else "?") + queryString
  {
    if queryString == "" then url else url + (if Contains(url, "?") then "&" else "?") + queryString
  }

  /** `Content-Type` is set to the body's default only when it is missing or
      empty. */
  function WithContentType(headers: map<string, string>, default: string): (r: map<string, string>)
  {
    if "Content-Type" in headers && headers["Content-Type"] != "" then headers
    else headers["Content-Type" := default]
  }

  lemma ContentTypeRule(headers: map<string, string>, default: string)
    ensures WithContentType(headers, default).Keys == headers.Keys + {"Content-Type"}
    ensures "Content-Type" in headers && headers["Content-Type"] != "" ==> WithContentType(headers, default) == headers
    ensures WithContentType(headers, default)["Content-Type"] != "" || default == ""
    ensures forall k :: k in headers && k != "Content-Type" ==> WithContentType(headers, default)[k] == headers[k]
  {
  }

  /** The parts of the request `executeRequest` builds. */
  datatype Prepared = Prepared(url: string, headers: map<string, string>, body: Option<string>, timeout: int)

  function PreparedUrl(config: RequestConfig, f: string -> string, encode: seq<(string, string)> -> string): string
  {
    var base := f(config.url);
    if config.query.Some? then WithQuery(base, encode(QueryPairs(config.query.value, f))) else base
  }

  /** An empty query object adds neither `?` nor `&`: the URL is the
      substituted one, as with no query at all. */
  lemma EmptyQueryKeepsUrl(config: RequestConfig, f: string -> string, encode: seq<(string, string)> -> string)
    requires encode([]) == ""
    requires config.query.None? || config.query.value == []
    ensures PreparedUrl(config, f, encode) == f(config.url)
  {
    if config.query.Some? {
      assert QueryPairs(config.query.value, f) == [];
    }
  }

  function SubstHeaders(config: RequestConfig, f: string -> string): (r: map<string, string>)
    ensures config.headers.None? ==> r == map[]
    ensures config.headers.Some? ==> (r.Keys == config.headers.value.Keys &&
      forall k :: k in r ==> r[k] == f(config.headers.value[k]))
  {
    if config.headers.Some? then map k | k in config.headers.value :: f(config.headers.value[k]) else map[]
  }

  /** The body (a falsy one is none) and the headers with its default
      `Content-Type`. */
  function WithBody(headers: map<string, string>, body: Option<RequestBody>, f: string -> string,
                    stringify: JsValue -> string): (map<string, string>, Option<string>)
  {
    match body
    case Some(BodyText(text)) =>
      if text == "" then (headers, None) else (WithContentType(headers, "text/plain"), Some(f(text)))
    case Some(BodyObject(fields)) =>
      (WithContentType(headers, "application/json"), Some(stringify(SubstValue(Obj(fields), f))))
    case None => (headers, None)
  }

  /** Everything `executeRequest` computes before calling `fetch`. */
  function Prepare(config: RequestConfig, f: string -> string,
                   encode: seq<(string, string)> -> string, stringify: JsValue -> string): Prepared
  {
    var (headers, body) := WithBody(SubstHeaders(config, f), config.body, f, stringify);
    Prepared(PreparedUrl(config, f, encode), headers, body, EffectiveTimeout(config.timeout))
  }

  /** The loop over the configured headers. */
  method ReplaceHeaders(config: RequestConfig, values: PromptValues, visible: set<string>, inputs: seq<PromptInput>)
    returns (headers: map<string, string>)
    ensures headers == SubstHeaders(config, s => ReplaceVariables(s, values, visible, inputs))
  {
    headers := map[];
    if config.headers.Some? {
      var source := config.headers.value;
      var pending := source.Keys;
      while pending != {}
        invariant pending <= source.Keys
        invariant headers == map k | k in source.Keys - pending :: ReplaceVariables(source[k], values, visible, inputs)
        decreases pending
      {
        var k :| k in pending;
        headers := headers[k := ReplaceVariables(source[k], values, visible, inputs)];
        pending := pending - {k};
      }
    }
  }

  /** The body step: substitute, then default the `Content-Type`. */
  method ReplaceBody(headers: map<string, string>, config: RequestConfig, values: PromptValues, visible: set<string>,
                     inputs: seq<PromptInput>, stringify: JsValue -> string)
    returns (headers': map<string, string>, body: Option<string>)
    ensures (headers', body) == WithBody(headers, config.body, s => ReplaceVariables(s, values, visible, inputs), stringify)
  {
    headers', body := headers, None;
    if config.body.Some? && config.body != Some(BodyText("")) {
      var existing := if "Content-Type" in headers then headers["Content-Type"] else "";
      var contentType: string;
      match config.body.value {
        case BodyText(text) =>
          body := Some(ReplaceVariables(text, values, visible, inputs));
          contentType := if existing != "" then existing else "text/plain";
        case BodyObject(fields) =>
          var replaced := ReplaceObjectVariables(Obj(fields), values, visible, inputs);
          body := Some(stringify(replaced));
          contentType := if existing != "" then existing else "application/json";
      }
      if contentType != "" && existing == "" {
        headers' := headers'["Content-Type" := contentType];
      }
    }
  }

  /** `executeRequest` up to the `fetch` call: the URL, query, headers,
      body and timeout, built step by step. */
  method PrepareRequest(config: RequestConfig, values: PromptValues, visible: set<string>, inputs: seq<PromptInput>,
                        encode: seq<(string, string)> -> string, stringify: JsValue -> string)
    returns (r: Prepared)
    ensures r == Prepare(config, s => ReplaceVariables(s, values, visible, inputs), encode, stringify)
  {
    var f := s => ReplaceVariables(s, values, visible, inputs);
    var url := ReplaceVariables(config.url, values, visible, inputs);
    if config.query.Some? {
      var queryString := encode(QueryPairs(config.query.value, f));
      if queryString != "" {
        url := url + (if Contains(url, "?") then "&" else "?") + queryString;
      }
    }
    var headers := ReplaceHeaders(config, values, visible, inputs);
    var body;
    headers, body := ReplaceBody(headers, config, values, visible, inputs, stringify);
    r := Prepared(url, headers, body, EffectiveTimeout(config.timeout));
  }

  /** Header keys are the configured ones, plus `Content-Type` exactly when
      there is a body and it was not set; a set `Content-Type` is kept. */
  lemma PreparedHeaders(config: RequestConfig, f: string -> string,
                        encode: seq<(string, string)> -> string, stringify: JsValue -> string)
    ensures var r := Prepare(config, f, encode, stringify);
      var configured := if config.headers.Some? then config.headers.value.Keys else {};
      (r.body.None? ==> r.headers.Keys == configured) &&
      (r.body.Some? ==> r.headers.Keys == configured + {"Content-Type"}) &&
      (forall k :: k in configured && (k != "Content-Type" || f(config.headers.value[k]) != "") ==>
        r.headers[k] == f(config.headers.value[k]))
    ensures Prepare(config, f, encode, stringify).body.Some? <==>
      config.body.Some? && config.body != Some(BodyText(""))
  {
  }

  /** The default timeout, and a plain-text body with no header set. */
  lemma PreparedExample(f: string -> string, encode: seq<(string, string)> -> string, stringify: JsValue -> string)
    requires forall s :: f(s) == s
    ensures var r := Prepare(RequestConfig("POST", "u", None, None, Some(BodyText("hi")), Some(0)), f, encode, stringify);
      r.timeout == 30000 && r.headers == map["Content-Type" := "text/plain"] && r.body == Some("hi") && r.url == "u"
  {
  }
}
