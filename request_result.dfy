/** `src/components/RequestResult.tsx`: the Markdown report shown after an
    HTTP request. `buildMarkdown` pushes one line after another onto a
    `sections` array and joins it with newlines; here each pushed line is a
    `Line`, rendered by `Text`. `JSON.stringify` is a parameter: for the
    response data it may fail (`None`, the `catch` branch); for the headers,
    a record of strings, it always succeeds. */
module RequestResult {
  import opened Js

  datatype Props = Props(
    success: bool,
    httpMethod: string,
    url: string,
    status: Option<int>,
    statusText: Option<string>,
    headers: Option<seq<(string, string)>>,
    data: JsValue,
    error: Option<string>)

  /** `formatData`: nothing for `undefined` and `null`, a string as it is,
      and otherwise the JSON encoding, or `String(data)` when encoding
      throws. */
  function FormatData(data: JsValue, stringify: JsValue -> Option<string>): (r: string)
  {
    if data.Undefined? || data.Null? then ""
    else if TypeOf(data) == "string" then data.s
    else if stringify(data).Some? then stringify(data).value
    else ToJsString(data)
  }

  /** The three outcomes of `formatData`, which the report's data block
      shows: missing data gives the empty string, a string is kept
      unchanged, and any other value is encoded, falling back to `String`. */
  lemma FormatDataCases(data: JsValue, stringify: JsValue -> Option<string>)
    ensures data.Undefined? || data.Null? ==> FormatData(data, stringify) == ""
    ensures forall s :: data == Str(s) ==> FormatData(data, stringify) == s
    ensures !data.Undefined? && !data.Null? && !data.Str? ==>
      FormatData(data, stringify) == (if stringify(data).Some? then stringify(data).value else ToJsString(data))
  {
  }

  /** The pushed lines. */
  datatype Line =
    | Heading(success: bool)
    | InfoHeading
    | MethodLine(httpMethod: string)
    | UrlLine(url: string)
    | StatusLine(status: int, statusText: string)
    | Blank
    | ErrorHeading
    | HeadersHeading
    | DataHeading
    | Open(json: bool)
    | Close
    | Body(text: string)

  /** The Markdown of one pushed line. */
  function Text(l: Line): string
  {
    match l
    case Heading(ok) => if ok then "# ✅ 请求成功\n" else "# ❌ 请求失败\n"
    case InfoHeading => "## 📤 请求信息\n"
    case MethodLine(m) => "- **方法**: `" + m + "`"
    case UrlLine(u) => "- **URL**: `" + u + "`"
    case StatusLine(s, t) => "- **状态码**: `" + IntToString(s) + " " + t + "`"
    case Blank => ""
    case ErrorHeading => "## ⚠️ 错误信息\n"
    case HeadersHeading => "## 📋 响应头\n"
    case DataHeading => "## 📦 响应数据\n"
    case Open(json) => if json then "```json" else "```"
    case Close => "```"
    case Body(t) => t
  }

  /** The rendered lines, in order. */
  function Texts(ls: seq<Line>): (r: seq<string>)
    ensures |r| == |ls|
    ensures forall i :: 0 <= i < |ls| ==> r[i] == Text(ls[i])
  {
    seq(|ls|, i requires 0 <= i < |ls| => Text(ls[i]))
  }

  /** `!success && error`: the request failed with a non-empty error. */
  predicate ShowsError(p: Props)
  {
    !p.success && p.error.Some? && p.error.value != ""
  }

  /** `headers && Object.keys(headers).length > 0`. */
  predicate ShowsHeaders(p: Props)
  {
    p.headers.Some? && |p.headers.value| > 0
  }

  /** `data !== undefined && data !== null`. */
  predicate ShowsData(p: Props)
  {
    !p.data.Undefined? && !p.data.Null?
  }

  /** The heading and the request information. */
  function Info(p: Props): seq<Line>
  {
    [Heading(p.success), InfoHeading, MethodLine(p.httpMethod), UrlLine(p.url)]
      + (if p.status.Some? then [StatusLine(p.status.value, OrEmpty(p.statusText))] else [])
      + [Blank]
  }

  function ErrorBlock(p: Props): seq<Line>
  {
    if ShowsError(p) then [ErrorHeading, Open(false), Body(p.error.value), Close, Blank] else []
  }

  function HeadersBlock(p: Props, headersJson: seq<(string, string)> -> string): seq<Line>
  {
    if ShowsHeaders(p) then [HeadersHeading, Open(true), Body(headersJson(p.headers.value)), Close, Blank] else []
  }

  function DataBlock(p: Props, stringify: JsValue -> Option<string>): seq<Line>
  {
    if ShowsData(p) then [DataHeading, Open(TypeOf(p.data) == "object"), Body(FormatData(p.data, stringify)), Close]
    else []
  }

  /** Every line the report pushes, in order. */
  function Lines(p: Props, stringify: JsValue -> Option<string>, headersJson: seq<(string, string)> -> string)
    : seq<Line>
  {
    Info(p) + ErrorBlock(p) + HeadersBlock(p, headersJson) + DataBlock(p, stringify)
  }

  /** The report opens with the success or failure heading, the request
      heading, the method and the URL; the status line follows exactly when
      the status is known, then a blank line. */
  lemma InfoShape(p: Props, stringify: JsValue -> Option<string>, headersJson: seq<(string, string)> -> string)
    ensures var ls := Lines(p, stringify, headersJson);
      |ls| >= 5 &&
      ls[0] == Heading(p.success) && ls[1] == InfoHeading &&
      ls[2] == MethodLine(p.httpMethod) && ls[3] == UrlLine(p.url) &&
      (p.status.Some? ==> ls[4] == StatusLine(p.status.value, OrEmpty(p.statusText)) && ls[5] == Blank) &&
      (p.status.None? ==> ls[4] == Blank)
  {
    var ls := Lines(p, stringify, headersJson);
    var info := Info(p);
    assert ls == info + (ErrorBlock(p) + HeadersBlock(p, headersJson) + DataBlock(p, stringify));
    assert forall i :: 0 <= i < |info| ==> ls[i] == info[i];
  }

  /** Which kinds of line each part holds. */
  lemma PartsContent(p: Props, stringify: JsValue -> Option<string>, headersJson: seq<(string, string)> -> string)
    ensures forall l :: l in Info(p) ==> !l.ErrorHeading? && !l.HeadersHeading? && !l.DataHeading?
    ensures forall l :: l in Info(p) && l.StatusLine? ==> p.status.Some?
    ensures forall l :: l in ErrorBlock(p) ==> !l.StatusLine? && !l.HeadersHeading? && !l.DataHeading?
    ensures forall l :: l in HeadersBlock(p, headersJson) ==> !l.StatusLine? && !l.ErrorHeading? && !l.DataHeading?
    ensures forall l :: l in DataBlock(p, stringify) ==> !l.StatusLine? && !l.ErrorHeading? && !l.HeadersHeading?
  {
  }

  /** The status line is pushed exactly when the status is known. */
  lemma StatusShown(p: Props, stringify: JsValue -> Option<string>, headersJson: seq<(string, string)> -> string)
    ensures (exists l :: l in Lines(p, stringify, headersJson) && l.StatusLine?) <==> p.status.Some?
  {
    var ls := Lines(p, stringify, headersJson);
    PartsContent(p, stringify, headersJson);
    if p.status.Some? {
      InfoShape(p, stringify, headersJson);
      assert ls[4] in ls && ls[4].StatusLine?;
    }
  }

  /** The error section is pushed exactly when the request failed with a
      non-empty error, and then holds the error unchanged in an untagged
      fence. */
  lemma ErrorShown(p: Props, stringify: JsValue -> Option<string>, headersJson: seq<(string, string)> -> string)
    ensures ErrorHeading in Lines(p, stringify, headersJson) <==> ShowsError(p)
    ensures ShowsError(p) ==> Body(p.error.value) in Lines(p, stringify, headersJson)
  {
    PartsContent(p, stringify, headersJson);
    if ShowsError(p) {
      var ls := Lines(p, stringify, headersJson);
      assert ls == Info(p) + ErrorBlock(p) + (HeadersBlock(p, headersJson) + DataBlock(p, stringify));
      assert ls[|Info(p)|] == ErrorHeading;
      assert ls[|Info(p)| + 2] == Body(p.error.value);
    }
  }

  /** The headers section is pushed exactly when there are headers, and
      then holds their JSON encoding in a fence tagged `json`. */
  lemma HeadersShown(p: Props, stringify: JsValue -> Option<string>, headersJson: seq<(string, string)> -> string)
    ensures HeadersHeading in Lines(p, stringify, headersJson) <==> ShowsHeaders(p)
    ensures ShowsHeaders(p) ==> Body(headersJson(p.headers.value)) in Lines(p, stringify, headersJson)
  {
    PartsContent(p, stringify, headersJson);
    if ShowsHeaders(p) {
      var ls := Lines(p, stringify, headersJson);
      var before := Info(p) + ErrorBlock(p);
      assert ls == before + HeadersBlock(p, headersJson) + DataBlock(p, stringify);
      assert ls[|before|] == HeadersHeading;
      assert ls[|before| + 2] == Body(headersJson(p.headers.value));
    }
  }

  /** The data section is pushed exactly when there is data; it closes the
      report with the formatted data, fenced as `json` exactly when the
      data is an object or an array. Without data the report ends with a
      blank line. */
  lemma DataShown(p: Props, stringify: JsValue -> Option<string>, headersJson: seq<(string, string)> -> string)
    ensures DataHeading in Lines(p, stringify, headersJson) <==> ShowsData(p)
    ensures var ls := Lines(p, stringify, headersJson);
      ShowsData(p) ==>
        (|ls| >= 9 &&
         ls[|ls| - 4..] == [DataHeading, Open(p.data.Arr? || p.data.Obj?), Body(FormatData(p.data, stringify)), Close])
    ensures var ls := Lines(p, stringify, headersJson);
      !ShowsData(p) ==> ls[|ls| - 1] == Blank
  {
    PartsContent(p, stringify, headersJson);
    var ls := Lines(p, stringify, headersJson);
    var before := Info(p) + ErrorBlock(p) + HeadersBlock(p, headersJson);
    assert ls == before + DataBlock(p, stringify);
    if ShowsData(p) {
      assert ls[|before|] == DataHeading;
      assert ls[|ls| - 4..] == DataBlock(p, stringify);
    } else {
      assert ls == before;
      if ShowsHeaders(p) {
        assert ls[|ls| - 1] == HeadersBlock(p, headersJson)[4];
      } else if ShowsError(p) {
        assert ls == Info(p) + ErrorBlock(p);
        assert ls[|ls| - 1] == ErrorBlock(p)[4];
      } else {
        assert ls == Info(p);
      }
    }
  }

  /** Rendering distributes over pushing one more line. */
  lemma TextsAppend(ls: seq<Line>, l: Line)
    ensures Texts(ls + [l]) == Texts(ls) + [Text(l)]
  {
  }

  /** One `sections.push`. */
  method Push(sections: seq<string>, ghost lines: seq<Line>, l: Line) returns (r: seq<string>)
    requires sections == Texts(lines)
    ensures r == Texts(lines + [l])
  {
    r := sections + [Text(l)];
    TextsAppend(lines, l);
  }

  /** `buildMarkdown`: the pushed lines joined with newlines. */
  method BuildMarkdown(p: Props, stringify: JsValue -> Option<string>, headersJson: seq<(string, string)> -> string)
    returns (markdown: string)
    ensures markdown == Join(Texts(Lines(p, stringify, headersJson)), "\n")
  {
    var sections: seq<string> := [];
    ghost var lines: seq<Line> := [];
    sections := Push(sections, lines, Heading(p.success));
    lines := lines + [Heading(p.success)];
    sections := Push(sections, lines, InfoHeading);
    lines := lines + [InfoHeading];
    sections := Push(sections, lines, MethodLine(p.httpMethod));
    lines := lines + [MethodLine(p.httpMethod)];
    sections := Push(sections, lines, UrlLine(p.url));
    lines := lines + [UrlLine(p.url)];
    if p.status.Some? {
      var statusText := if p.statusText.Some? && p.statusText.value != "" then p.statusText.value else "";
      sections := Push(sections, lines, StatusLine(p.status.value, statusText));
      lines := lines + [StatusLine(p.status.value, statusText)];
    }
    sections := Push(sections, lines, Blank);
    lines := lines + [Blank];
    assert lines == Info(p);
    sections := PushError(sections, lines, p);
    lines := lines + ErrorBlock(p);
    sections := PushHeaders(sections, lines, p, headersJson);
    lines := lines + HeadersBlock(p, headersJson);
    sections := PushData(sections, lines, p, stringify);
    lines := lines + DataBlock(p, stringify);
    markdown := Join(sections, "\n");
  }

  /** The error section, when the request failed with an error. */
  method PushError(sections: seq<string>, ghost lines: seq<Line>, p: Props) returns (r: seq<string>)
    requires sections == Texts(lines)
    ensures r == Texts(lines + ErrorBlock(p))
  {
    if !p.success && p.error.Some? && p.error.value != "" {
      r := Push(sections, lines, ErrorHeading);
      r := Push(r, lines + [ErrorHeading], Open(false));
      r := Push(r, lines + [ErrorHeading, Open(false)], Body(p.error.value));
      r := Push(r, lines + [ErrorHeading, Open(false), Body(p.error.value)], Close);
      r := Push(r, lines + [ErrorHeading, Open(false), Body(p.error.value), Close], Blank);
    } else {
      r := sections;
      assert lines + [] == lines;
    }
  }

  /** The headers section, when there are headers. */
  method PushHeaders(sections: seq<string>, ghost lines: seq<Line>, p: Props,
                     headersJson: seq<(string, string)> -> string) returns (r: seq<string>)
    requires sections == Texts(lines)
    ensures r == Texts(lines + HeadersBlock(p, headersJson))
  {
    if p.headers.Some? && |p.headers.value| > 0 {
      var headers := headersJson(p.headers.value);
      r := Push(sections, lines, HeadersHeading);
      r := Push(r, lines + [HeadersHeading], Open(true));
      r := Push(r, lines + [HeadersHeading, Open(true)], Body(headers));
      r := Push(r, lines + [HeadersHeading, Open(true), Body(headers)], Close);
      r := Push(r, lines + [HeadersHeading, Open(true), Body(headers), Close], Blank);
    } else {
      r := sections;
      assert lines + [] == lines;
    }
  }

  /** The data section, when there is data. */
  method PushData(sections: seq<string>, ghost lines: seq<Line>, p: Props,
                  stringify: JsValue -> Option<string>) returns (r: seq<string>)
    requires sections == Texts(lines)
    ensures r == Texts(lines + DataBlock(p, stringify))
  {
    if !p.data.Undefined? && !p.data.Null? {
      var formattedData := FormatData(p.data, stringify);
      var json := TypeOf(p.data) == "object";
      r := Push(sections, lines, DataHeading);
      r := Push(r, lines + [DataHeading], Open(json));
      r := Push(r, lines + [DataHeading, Open(json)], Body(formattedData));
      r := Push(r, lines + [DataHeading, Open(json), Body(formattedData)], Close);
    } else {
      r := sections;
      assert lines + [] == lines;
    }
  }
}
