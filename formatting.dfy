/**
 * The `log_format` setting and the formatter it selects
 * (lib/active_record/mod_sql_log_subscriber.rb:44-58).
 */
module Formatting {
  import opened Wrappers
  import opened Rendering

  /** What is handed to the logger: a line of text, or the structured
      `{sql:, binds:}` value for loggers that take structured payloads. */
  datatype Output = Line(text: string) | Record(sql: string, binds: Binds)

  /** A caller-supplied formatting proc `(sql, binds) -> value`. */
  type Proc = (string, Binds) -> Output

  /** The value of `log_format`: one of the symbols `:text`, `:json`, `:hash`,
      a proc, or anything else (held by its `to_s`). */
  datatype LogFormat = Text | Json | Hash | Custom(proc: Proc) | Unsupported(name: string)

  /** A resolved formatter, the value cached in `@formatter`. */
  datatype Formatter = TextFormatter | JsonFormatter | HashFormatter | ProcFormatter(proc: Proc)

  /** The `case` over `log_format`: a proc is used as it is, and any other value
      that is not one of the three symbols raises. */
  function Resolve(format: LogFormat): (r: Result<Formatter, string>)
    ensures r.Failure? <==> format.Unsupported?
    ensures format.Unsupported? ==> r.error == "Unexpected log format: " + format.name
    ensures format.Text? <==> r == Success(TextFormatter)
    ensures format.Json? <==> r == Success(JsonFormatter)
    ensures format.Hash? <==> r == Success(HashFormatter)
    ensures format.Custom? <==> r.Success? && r.value.ProcFormatter?
    ensures format.Custom? ==> r.value.proc == format.proc
  {
    match format
    case Text => Success(TextFormatter)
    case Json => Success(JsonFormatter)
    case Hash => Success(HashFormatter)
    case Custom(p) => Success(ProcFormatter(p))
    case Unsupported(name) => Failure("Unexpected log format: " + name)
  }

  /** `formatter.call(sql, binds)`. */
  function Call(f: Formatter, sql: string, binds: Binds): (out: Output)
    // text: the statement alone when there are no binds, otherwise the
    // statement, two spaces and the rendered binds
    ensures f.TextFormatter? ==> out.Line? && |out.text| >= |sql| && out.text[..|sql|] == sql
    ensures f.TextFormatter? && binds == [] ==> out.text == sql
    ensures f.TextFormatter? && binds != [] ==>
              && |out.text| > |sql| + 2
              && out.text[|sql|..|sql| + 2] == "  "
              && out.text[|sql| + 2..] == InspectBinds(binds)
    // json: one line whose `sql` key reads back as the statement
    ensures f.JsonFormatter? ==> out.Line? && SqlField(out.text) == Some(sql)
    // json: the `sql` key comes first, and the `binds` member follows its value
    ensures f.JsonFormatter? ==>
              && |out.text| >= |SqlKeyOpen|
              && out.text[..|SqlKeyOpen|] == SqlKeyOpen
              && ReadString(out.text[|SqlKeyOpen|..]) == Some((sql, BindsMember(binds)))
    // hash: the structured value with the statement and binds unchanged
    ensures f.HashFormatter? ==> out.Record? && out.sql == sql && out.binds == binds
    // proc: whatever the proc returns, unmodified
    ensures f.ProcFormatter? ==> out == f.proc(sql, binds)
  {
    match f
    case TextFormatter =>
      if binds == [] then Line(sql)
      else
        var line := sql + "  " + InspectBinds(binds);
        assert line[..|sql|] == sql && line[|sql|..|sql| + 2] == "  ";
        assert line[|sql| + 2..] == InspectBinds(binds);
        Line(line)
    case JsonFormatter =>
      JsonCarriesSql(sql, binds);
      Line(JsonDocument(sql, binds))
    case HashFormatter => Record(sql, binds)
    case ProcFormatter(p) => p(sql, binds)
  }

  /** A text line with binds is strictly longer than the statement, so the two
      cases of the text formatter are told apart by the line alone. */
  lemma TextLineShowsBinds(sql: string, binds: Binds)
    ensures (|Call(TextFormatter, sql, binds).text| == |sql|) <==> binds == []
  {
    if binds != [] {
      var t := Call(TextFormatter, sql, binds).text;
      assert |t[|sql| + 2..]| >= 2;
    }
  }
}
