/**
 * `ActiveRecord::ModSqlLogSubscriber` (lib/active_record/mod_sql_log_subscriber.rb):
 * a log subscriber that writes one formatted line per data-changing or
 * transaction-control statement.
 *
 * `Handle` is the specification of one call of `sql(event)`: it takes the
 * subscriber's whole state (configuration, the two memoised caches and the
 * writes made so far) and gives the new state and how the call ends. The class
 * `ModSqlLogSubscriber` holds that state in fields and its method `Sql` is proved
 * against `Handle`.
 */
module SqlLogSubscriber {
  import opened Wrappers
  import opened SqlChecker
  import opened Rendering
  import opened Formatting

  /** The logger methods a subscriber can send to. */
  datatype Level = Debug | Info | Warn | Error | Fatal | Unknown

  /** One logger call: the level it was sent at and the value it was given. */
  datatype Write = Write(level: Level, payload: Output)

  /** The parts of an `sql.active_record` notification payload that are read:
      `:sql` (may be nil), `:cached`, `:name` and the type-cast binds. */
  datatype Event = Event(sql: Option<string>, cached: bool, name: string, binds: Binds)

  /** `IGNORE_PAYLOAD_NAMES`, inherited from `ActiveRecord::LogSubscriber`. */
  const IgnorePayloadNames: set<string> := {"SCHEMA", "EXPLAIN"}

  /** The default `target_statements`. */
  const DefaultTargetStatements: seq<string> :=
    ["insert", "update", "delete", "truncate", "begin", "commit", "rollback",
     "savepoint", "release savepoint"]

  /** How a call of `sql(event)` ends: it returns, or it raises with a message. */
  datatype Outcome = Returned | Raised(message: string)

  /** Configuration (`disable`, `log_level`, `log_format`, `target_statements`),
      the caches `@target_sql_checker` and `@formatter`, and the logger's record. */
  datatype State = State(
    disable: bool,
    logLevel: Level,
    logFormat: LogFormat,
    targetStatements: seq<string>,
    targetSqlChecker: Option<Checker>,
    formatter: Option<Formatter>,
    logged: seq<Write>)

  /** The defaults: enabled, `:info`, `:text`, the nine default targets, empty caches. */
  function Defaults(): State {
    State(false, Info, Text, DefaultTargetStatements, None, None, [])
  }

  /** `target_sql_checker`: the cached pattern, or one built from the current targets. */
  function CurrentChecker(st: State): Checker {
    match st.targetSqlChecker
    case Some(c) => c
    case None => Compile(st.targetStatements)
  }

  /** `formatter`: the cached formatter, or the resolution of the current format. */
  function CurrentFormatter(st: State): Result<Formatter, string> {
    match st.formatter
    case Some(f) => Success(f)
    case None => Resolve(st.logFormat)
  }

  /** The first four checks pass: not disabled, SQL present, not cached, name not ignored. */
  predicate ReachesChecker(st: State, e: Event) {
    !st.disable && e.sql.Some? && !e.cached && e.name !in IgnorePayloadNames
  }

  /** All five checks pass: the statement also starts, after optional whitespace,
      with one of the alternatives of the pattern in use. */
  ghost predicate Qualifies(st: State, e: Event) {
    ReachesChecker(st, e) && RegexAccepts(CurrentChecker(st).alternatives, e.sql.value)
  }

  /** Configuration is only read, never changed, by a call. */
  ghost predicate SameConfig(a: State, b: State) {
    a.disable == b.disable && a.logLevel == b.logLevel &&
    a.logFormat == b.logFormat && a.targetStatements == b.targetStatements
  }

  /** One call of `sql(event)`. */
  function Handle(st: State, e: Event): (r: (State, Outcome))
    ensures SameConfig(r.0, st)
    // an event stopped by one of the first four checks changes nothing
    ensures !ReachesChecker(st, e) ==> r.0 == st && r.1 == Returned
    // once the pattern has been consulted it is cached
    ensures ReachesChecker(st, e) ==> r.0.targetSqlChecker == Some(CurrentChecker(st))
    // a qualifying event with a usable format: exactly one write, at the
    // configured level, of the formatted statement; the formatter is cached
    ensures Qualifies(st, e) && CurrentFormatter(st).Success? ==>
              && r.1 == Returned
              && r.0.formatter == Some(CurrentFormatter(st).value)
              && r.0.logged == st.logged +
                   [Write(st.logLevel, Call(CurrentFormatter(st).value, e.sql.value, e.binds))]
    // otherwise nothing is written and no formatter is cached
    ensures !(Qualifies(st, e) && CurrentFormatter(st).Success?) ==>
              r.0.logged == st.logged && r.0.formatter == st.formatter
    // the call raises exactly for a qualifying event whose format cannot be resolved
    ensures r.1.Raised? <==> Qualifies(st, e) && CurrentFormatter(st).Failure?
    ensures r.1.Raised? ==> r.1.message == CurrentFormatter(st).error
  {
    if st.disable then (st, Returned)
    else match e.sql
      case None => (st, Returned)
      case Some(sql) =>
        if e.cached then (st, Returned)
        else if e.name in IgnorePayloadNames then (st, Returned)
        else
          var checker := CurrentChecker(st);
          var st1 := st.(targetSqlChecker := Some(checker));
          if !checker.Match(sql) then (st1, Returned)
          else match CurrentFormatter(st1)
            case Failure(message) => (st1, Raised(message))
            case Success(f) =>
              var out := Call(f, sql, e.binds);
              (st1.(formatter := Some(f), logged := st1.logged + [Write(st1.logLevel, out)]), Returned)
  }

  /** The subscriber object. Configuration fields are public, as `config_accessor`
      makes them; `logged` records every logger call. */
  class ModSqlLogSubscriber {
    var disable: bool
    var logLevel: Level
    var logFormat: LogFormat
    var targetStatements: seq<string>
    var targetSqlChecker: Option<Checker>
    var formatter: Option<Formatter>
    var logged: seq<Write>

    /** The object's state as a value. */
    function Snapshot(): State
      reads this
    {
      State(disable, logLevel, logFormat, targetStatements, targetSqlChecker, formatter, logged)
    }

    constructor ()
      ensures Snapshot() == Defaults()
    {
      disable, logLevel, logFormat := false, Info, Text;
      targetStatements := DefaultTargetStatements;
      targetSqlChecker, formatter := None, None;
      logged := [];
    }

    /** `target_sql_checker`: builds the pattern on first use (`||=`). */
    method TargetSqlChecker() returns (c: Checker)
      modifies this
      ensures c == CurrentChecker(old(Snapshot()))
      ensures Snapshot() == old(Snapshot()).(targetSqlChecker := Some(c))
    {
      if targetSqlChecker.None? {
        targetSqlChecker := Some(Compile(targetStatements));
      }
      c := targetSqlChecker.value;
    }

    /** `formatter`: resolves `log_format` on first use (`||=`); a resolution
        that raises caches nothing. */
    method ResolveFormatter() returns (r: Result<Formatter, string>)
      modifies this
      ensures r == CurrentFormatter(old(Snapshot()))
      ensures Snapshot() == old(Snapshot()).(formatter := if r.Success? then Some(r.value) else old(formatter))
    {
      if formatter.None? {
        var resolved := Resolve(logFormat);
        if resolved.Failure? {
          return resolved;
        }
        formatter := Some(resolved.value);
      }
      r := Success(formatter.value);
    }

    /** `sql(event)`: the five skips in order, then one write. */
    method Sql(event: Event) returns (outcome: Outcome)
      modifies this
      ensures (Snapshot(), outcome) == Handle(old(Snapshot()), event)
    {
      if disable {
        return Returned;
      }
      if event.sql.None? {
        return Returned;
      }
      var sql := event.sql.value;
      if event.cached {
        return Returned;
      }
      if event.name in IgnorePayloadNames {
        return Returned;
      }
      var checker := TargetSqlChecker();
      if !checker.Match(sql) {
        return Returned;
      }
      var f := ResolveFormatter();
      if f.Failure? {
        return Raised(f.error);
      }
      logged := logged + [Write(logLevel, Call(f.value, sql, event.binds))];
      outcome := Returned;
    }
  }
}

/**
 * Properties that relate several calls of `sql(event)`: memoisation of the
 * pattern and the formatter, and the cases exercised by
 * spec/active_record/mod_sql_log_subscriber_spec.rb.
 */
module SubscriberProperties {
  import opened Wrappers
  import opened SqlChecker
  import opened Rendering
  import opened Formatting
  import opened SqlLogSubscriber

  /** Two states give the same observable result for an event: the same outcome
      and the same writes. */
  ghost predicate SameEffect(a: (State, Outcome), b: (State, Outcome)) {
    a.1 == b.1 && a.0.logged == b.0.logged
  }

  /** A cached pattern is used whatever `target_statements` holds now. */
  lemma CachedCheckerIgnoresTargets(st: State, e: Event, targets: seq<string>)
    requires st.targetSqlChecker.Some?
    ensures SameEffect(Handle(st.(targetStatements := targets), e), Handle(st, e))
  {
  }

  /** A cached formatter is used whatever `log_format` holds now. */
  lemma CachedFormatterIgnoresFormat(st: State, e: Event, format: LogFormat)
    requires st.formatter.Some?
    ensures SameEffect(Handle(st.(logFormat := format), e), Handle(st, e))
  {
  }

  /** After a call that got past the first four checks, later changes to
      `target_statements` no longer affect that subscriber. */
  lemma TargetsFixedAfterFirstCheck(st: State, e: Event, next: Event, targets: seq<string>)
    requires ReachesChecker(st, e)
    ensures var after := Handle(st, e).0;
            SameEffect(Handle(after.(targetStatements := targets), next), Handle(after, next))
  {
    CachedCheckerIgnoresTargets(Handle(st, e).0, next, targets);
  }

  /** After a call that wrote, later changes to `log_format` no longer affect
      that subscriber, even a change to an unsupported format. */
  lemma FormatFixedAfterFirstWrite(st: State, e: Event, next: Event, format: LogFormat)
    requires |Handle(st, e).0.logged| > |st.logged|
    ensures var after := Handle(st, e).0;
            SameEffect(Handle(after.(logFormat := format), next), Handle(after, next))
  {
    CachedFormatterIgnoresFormat(Handle(st, e).0, next, format);
  }

  /** A raise caches no formatter: the same event raises again, and nothing is written. */
  lemma RaiseRepeats(st: State, e: Event)
    requires Handle(st, e).1.Raised?
    ensures var after := Handle(st, e).0;
            Handle(after, e).1 == Handle(st, e).1 && Handle(after, e).0.logged == st.logged
  {
  }

  /** A raise does not disable the subscriber: once `log_format` is corrected,
      the same event is written with the new format. */
  lemma CorrectedFormatTakesEffect(st: State, e: Event, format: LogFormat)
    requires Handle(st, e).1.Raised? && !format.Unsupported?
    ensures var after := Handle(st, e).0.(logFormat := format);
            && Handle(after, e).1 == Returned
            && Handle(after, e).0.logged ==
                 st.logged + [Write(st.logLevel, Call(Resolve(format).value, e.sql.value, e.binds))]
  {
  }

  /** An unsupported format goes unnoticed for every event that is filtered out. */
  lemma UnsupportedFormatSilentWhenFiltered(st: State, e: Event)
    requires st.logFormat.Unsupported? && st.formatter.None?
    ensures Handle(st, e).1.Raised? <==> Qualifies(st, e)
  {
  }

}

/**
 * The pattern built from the default `target_statements`, on the statements
 * of spec/active_record/mod_sql_log_subscriber_spec.rb.
 */
module DefaultTargets {
  import opened SqlChecker
  import opened SqlLogSubscriber

  /** The default targets hold no empty string and none starts with whitespace,
      so `LeadingSpaceSkipped` applies to the default pattern. */
  lemma DefaultTargetsShape()
    ensures Alternatives(DefaultTargetStatements) == DefaultTargetStatements
    ensures "" !in DefaultTargetStatements && NoLeadingSpace(DefaultTargetStatements)
  {
  }

  /** `SELECT` is not among the defaults: a statement starting with it is skipped. */
  lemma SelectRejected()
    ensures !RegexAccepts(DefaultTargetStatements, "SELECT * FROM users")
  {
    var s := "SELECT * FROM users";
    forall t | t in DefaultTargetStatements ensures !PrefixCI(t, s) {
      if t == "savepoint" {
        assert Fold(t[1]) != Fold(s[1]);
      } else {
        assert Fold(t[0]) != Fold(s[0]);
      }
    }
    NoAlternativeRejects(DefaultTargetStatements, s);
  }

  /** Splits a statement into its keyword and the rest. */
  lemma SplitAfterKeyword(kw: string, rest: string, s: string)
    requires |s| == |kw| + |rest| && s[..|kw|] == kw && s[|kw|..] == rest
    ensures "" + kw + rest == s
  {
    assert s == s[..|kw|] + s[|kw|..];
  }

  /** The statement of the unexpected-format test, `INSERT`, is accepted. */
  lemma BareInsertAccepted()
    ensures RegexAccepts(DefaultTargetStatements, "INSERT")
  {
    assert DefaultTargetStatements[0] == "insert";
    KeywordAccepted(DefaultTargetStatements, "", "INSERT", "insert", "");
    assert "" + "INSERT" + "" == "INSERT";
  }

  /** The statement of the DELETE tests is accepted. */
  lemma DeleteAccepted()
    ensures RegexAccepts(DefaultTargetStatements, "DELETE FROM users WHERE id = $1")
  {
    assert DefaultTargetStatements[2] == "delete";
    KeywordAccepted(DefaultTargetStatements, "", "DELETE", "delete", " FROM users WHERE id = $1");
    SplitAfterKeyword("DELETE", " FROM users WHERE id = $1", "DELETE FROM users WHERE id = $1");
  }

  /** The statement of the INSERT test is accepted. */
  lemma InsertAccepted()
    ensures RegexAccepts(DefaultTargetStatements, "INSERT INTO users VALUES ($1, $2)")
  {
    assert DefaultTargetStatements[0] == "insert";
    KeywordAccepted(DefaultTargetStatements, "", "INSERT", "insert", " INTO users VALUES ($1, $2)");
    SplitAfterKeyword("INSERT", " INTO users VALUES ($1, $2)", "INSERT INTO users VALUES ($1, $2)");
  }

  /** Leading whitespace is skipped and there is no word boundary:
      `"  \tROLLBACKED"` is accepted. */
  lemma IndentedRollbackAccepted()
    ensures RegexAccepts(DefaultTargetStatements, "  \tROLLBACKED")
  {
    var ws, kw, rest := "  \t", "ROLLBACK", "ED";
    assert ws + kw + rest == "  \tROLLBACKED";
    assert AllSpace(ws) by {
      forall i | 0 <= i < |ws| ensures IsSpace(ws[i]) {
      }
    }
    assert DefaultTargetStatements[6] == "rollback";
    KeywordAccepted(DefaultTargetStatements, ws, kw, "rollback", rest);
  }
}

/**
 * The cases of spec/active_record/mod_sql_log_subscriber_spec.rb, on a
 * subscriber in its default state.
 */
module SubscriberExamples {
  import opened Wrappers
  import opened SqlChecker
  import opened Rendering
  import opened Formatting
  import opened SqlLogSubscriber
  import opened DefaultTargets

  const DeleteSql: string := "DELETE FROM users WHERE id = $1"

  const IdBinds: Binds := [("id", Int(1))]

  /** The event of the format tests: a DELETE with one bind `id = 1`. */
  function DeleteEvent(): Event {
    Event(Some(DeleteSql), false, "SQL", IdBinds)
  }

  /** An event with the defaults' ordinary payload name and an accepted
      statement passes all five checks on a fresh subscriber. */
  lemma QualifiesOnFreshSubscriber(st: State, e: Event)
    requires !st.disable && st.targetSqlChecker.None? && st.targetStatements == DefaultTargetStatements
    requires e.sql.Some? && !e.cached && e.name == "SQL"
    requires RegexAccepts(DefaultTargetStatements, e.sql.value)
    ensures Qualifies(st, e)
  {
    assert "SQL" !in IgnorePayloadNames;
  }

  /** `:text` writes the statement, two spaces and `{:id=>1}`, at `:info`. */
  lemma TextFormatExample()
    ensures Handle(Defaults(), DeleteEvent()).1 == Returned
    ensures Handle(Defaults(), DeleteEvent()).0.logged ==
              [Write(Info, Line("DELETE FROM users WHERE id = $1  {:id=>1}"))]
  {
    var st, e := Defaults(), DeleteEvent();
    DeleteAccepted();
    QualifiesOnFreshSubscriber(st, e);
    assert CurrentFormatter(st) == Success(TextFormatter);
    TextLineExample();
  }

  lemma TextLineExample()
    ensures Call(TextFormatter, DeleteSql, IdBinds) == Line("DELETE FROM users WHERE id = $1  {:id=>1}")
  {
    assert InspectBinds(IdBinds) == "{:id=>1}";
  }

  /** `:json` writes `{"sql":"DELETE FROM users WHERE id = $1","binds":{"id":1}}`
      (the statement has no character that JSON escapes). */
  lemma JsonFormatExample()
    ensures Handle(Defaults().(logFormat := Json), DeleteEvent()).0.logged ==
              [Write(Info, Line("{\"sql\":\"" + DeleteSql + "\",\"binds\":{\"id\":1}}"))]
  {
    var st, e := Defaults().(logFormat := Json), DeleteEvent();
    DeleteAccepted();
    QualifiesOnFreshSubscriber(st, e);
    assert CurrentFormatter(st) == Success(JsonFormatter);
    JsonLineExample();
  }

  lemma JsonLineExample()
    ensures Call(JsonFormatter, DeleteSql, IdBinds) ==
              Line("{\"sql\":\"" + DeleteSql + "\",\"binds\":{\"id\":1}}")
  {
    JsonDocumentParts();
    JsonDocumentText();
  }

  lemma JsonDocumentParts()
    ensures JsonDocument(DeleteSql, IdBinds) == SqlKeyOpen + (DeleteSql + "\"" + ",\"binds\":{\"id\":1}}")
  {
    DeleteSqlIsPlain();
    IdBindsJson();
  }

  lemma JsonDocumentText()
    ensures SqlKeyOpen + (DeleteSql + "\"" + ",\"binds\":{\"id\":1}}") ==
              "{\"sql\":\"" + DeleteSql + "\",\"binds\":{\"id\":1}}"
  {
  }

  lemma DeleteSqlIsPlain()
    ensures Escape(DeleteSql) == DeleteSql
  {
    EscapePlain(DeleteSql);
  }

  lemma IdBindsJson()
    ensures BindsMember(IdBinds) == ",\"binds\":{\"id\":1}}"
  {
    EscapePlain("id");
    assert JsonPairs(IdBinds) == "\"id\":1";
  }

  /** `:hash` writes the structured value `{sql: sql, binds: {id: 1}}`. */
  lemma HashFormatExample()
    ensures Handle(Defaults().(logFormat := Hash), DeleteEvent()).0.logged ==
              [Write(Info, Record(DeleteSql, IdBinds))]
  {
    var st, e := Defaults().(logFormat := Hash), DeleteEvent();
    DeleteAccepted();
    QualifiesOnFreshSubscriber(st, e);
  }

  /** A proc's result is written as it is. */
  lemma CustomProcExample()
    ensures var proc := (sql: string, binds: Binds) => Line("custom proc");
            Handle(Defaults().(logFormat := Custom(proc)), DeleteEvent()).0.logged ==
              [Write(Info, Line("custom proc"))]
  {
    var proc := (sql: string, binds: Binds) => Line("custom proc");
    var st, e := Defaults().(logFormat := Custom(proc)), DeleteEvent();
    DeleteAccepted();
    QualifiesOnFreshSubscriber(st, e);
  }

  /** An unexpected format raises on a qualifying statement and writes nothing. */
  lemma UnexpectedFormatExample()
    ensures var st := Defaults().(logFormat := Unsupported("unexpected"));
            var r := Handle(st, Event(Some("INSERT"), false, "SQL", []));
            r.1 == Raised("Unexpected log format: unexpected") && r.0.logged == []
  {
    var st := Defaults().(logFormat := Unsupported("unexpected"));
    var e := Event(Some("INSERT"), false, "SQL", []);
    BareInsertAccepted();
    QualifiesOnFreshSubscriber(st, e);
    UnexpectedMessage();
  }

  lemma UnexpectedMessage()
    ensures Resolve(Unsupported("unexpected")) == Failure("Unexpected log format: unexpected")
  {
    assert "Unexpected log format: " + "unexpected" == "Unexpected log format: unexpected";
  }

  /** SELECT, a disabled subscriber, nil SQL, a cached result and an ignored
      payload name each write nothing. */
  lemma SkippedExamples()
    ensures Handle(Defaults(), Event(Some("SELECT * FROM users"), false, "SQL", [])).0.logged == []
    ensures Handle(Defaults().(disable := true), Event(Some("DELETE FROM users"), false, "SQL", [])).0.logged == []
    ensures Handle(Defaults(), Event(None, false, "SQL", [])).0.logged == []
    ensures Handle(Defaults(), Event(Some("DELETE FROM users"), true, "SQL", [])).0.logged == []
    ensures Handle(Defaults(), Event(Some("DELETE FROM users"), false, "EXPLAIN", [])).0.logged == []
  {
    SelectRejected();
  }
}
