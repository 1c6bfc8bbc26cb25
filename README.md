# ModSqlLogSubscriber, modelled in Dafny

`ActiveRecord::ModSqlLogSubscriber` is an ActiveRecord log subscriber. For
every `sql.active_record` notification, `sql(event)` runs five skips in order:

1. the subscriber is disabled;
2. the payload's SQL is `nil`;
3. the result came from the query cache;
4. the payload name is one of `IGNORE_PAYLOAD_NAMES`;
5. the statement does not start, after optional whitespace, with one of
   `target_statements` (by default `insert update delete truncate begin commit
   rollback savepoint release savepoint`), compared without regard to case.

An event that passes all five is formatted by `log_format` and written once to
the logger at `log_level`. `log_format` can be `:text`, `:json`, `:hash` or a
proc. Any other value raises. The compiled pattern and the resolved formatter
are memoised on the instance with `||=`.

The project has eight modules, in five files:

- `Wrappers`: `Option` and `Result`.
- `SqlChecker`: the pattern `/\A\s*(t1|...|tn)/mi`.
  - `RegexAccepts` says what the pattern accepts, by an existential over how much
    whitespace `\s*` consumes and which alternative follows.
  - `MatchFrom` is the scan the checker runs.
  - `MatchFromIffRegex` proves the two agree.
  - Other lemmas cover case-insensitivity, whitespace skipping, the missing word
    boundary, and the empty target list.
- `Rendering`: bind values, rendered as `Hash#inspect` and as `JSON.generate` write
  them, including JSON string escaping. A reader for JSON strings proves that the
  escaping round-trips and that the JSON line holds the statement unchanged.
- `Formatting`: the `log_format` value, its resolution into a formatter (or the
  "Unexpected log format" error), and the four formatters.
- `SqlLogSubscriber`: the subscriber's state (configuration, the two caches, and
  the record of logger writes).
  - `Handle` specifies one call of `sql(event)`.
  - The class `ModSqlLogSubscriber` keeps that state in fields, and its method
    `Sql` is proved equal to `Handle`.
  - `SubscriberProperties` relates several calls (memoisation, a raise that
    repeats, a corrected format).
  - `DefaultTargets` and `SubscriberExamples` restate the repository's test cases.

## Behaviour of the code worth noting

- Only a `nil` statement is skipped explicitly. An empty statement is skipped
  only because it cannot match when every target is non-empty
  (`EmptyStatementRejected`).
- With an empty `target_statements` the pattern is `\A\s*()`, and it matches
  every statement (`EmptyTargetListMatchesAll`).
- The pattern is anchored at the start of the whole statement. `\s*` skips
  whitespace, including line breaks. No trimming or per-line matching happens.
- `ActiveSupport::LogSubscriber` has six level methods (`debug`, `info`, `warn`,
  `error`, `fatal`, `unknown`), and `log_level` can name any of them.

## Model

| member | source | states |
|---|---|---|
| `SqlChecker.Alternatives` | lib/active_record/mod_sql_log_subscriber.rb:41 | the group built by joining `target_statements` is never empty, it has an empty alternative exactly when the list is empty or holds `""`, and a non-empty list gives exactly its own targets as the alternatives |
| `SqlChecker.Compile` | lib/active_record/mod_sql_log_subscriber.rb:41 | the compiled checker's alternatives are those of the joined target list |
| `SqlChecker.Checker.Match` | lib/active_record/mod_sql_log_subscriber.rb:32 | `match?` is true exactly when `\A\s*(alts)` accepts the statement: some run of leading whitespace is followed by an alternative, compared with ASCII case folding |
| `SqlChecker.MatchFromIffRegex` | lib/active_record/mod_sql_log_subscriber.rb:41 | the scan (try the alternatives here, or else skip one whitespace character) accepts exactly the strings the anchored pattern accepts, in both directions |
| `SqlChecker.FoldString` | lib/active_record/mod_sql_log_subscriber.rb:41 | the `i` flag's folding: same length, each character folded |
| `SqlChecker.EmptyTargetListMatchesAll` | lib/active_record/mod_sql_log_subscriber.rb:41 | an empty `target_statements` gives `\A\s*()`, which accepts every statement |
| `SqlChecker.EmptyStatementRejected` | lib/active_record/mod_sql_log_subscriber.rb:29-32 | an empty statement is not rejected as nil, but it fails the pattern when the target list is non-empty and holds no empty string |
| `SqlChecker.CaseInsensitive` | lib/active_record/mod_sql_log_subscriber.rb:41 | statements that differ only in ASCII letter case are accepted or rejected together |
| `SqlChecker.LeadingSpaceSkipped` | lib/active_record/mod_sql_log_subscriber.rb:41 | one leading Ruby `\s` character does not change acceptance when no alternative starts with whitespace |
| `SqlChecker.KeywordAccepted` | lib/active_record/mod_sql_log_subscriber.rb:41 | whitespace, then a word equal to an alternative up to case, then anything, is accepted: there is no word boundary |
| `SqlChecker.NoAlternativeRejects` | lib/active_record/mod_sql_log_subscriber.rb:41 | a statement that starts with no whitespace and has no alternative as a prefix is rejected |
| `Rendering.InspectBinds` | lib/active_record/mod_sql_log_subscriber.rb:48 | the rendered binds are enclosed in `{` and `}` |
| `Rendering.BindsMember` | lib/active_record/mod_sql_log_subscriber.rb:50 | what follows the `sql` value is the `"binds"` key opening an object, and the document closes with `}}` |
| `Rendering.ReadEscaped` | lib/active_record/mod_sql_log_subscriber.rb:50 | JSON string escaping round-trips: reading an escaped string up to its closing quote gives the string back and leaves what follows |
| `Rendering.EscapePlain` | lib/active_record/mod_sql_log_subscriber.rb:50 | text with no quote, backslash or control character is written unescaped |
| `Rendering.JsonDocument` | lib/active_record/mod_sql_log_subscriber.rb:50 | `JSON.generate(sql: sql, binds: binds)` starts with the `sql` key, its string value reads back as the statement, and what follows it is the `binds` member and the closing brace |
| `Rendering.JsonCarriesSql` | lib/active_record/mod_sql_log_subscriber.rb:50 | the JSON line's first key is `sql`, its value reads back as the statement unchanged, and the `binds` member follows |
| `Formatting.Resolve` | lib/active_record/mod_sql_log_subscriber.rb:46-57 | `:text`, `:json` and `:hash` select their formatters, a proc is used as it is, and every other value fails with "Unexpected log format: " and the value |
| `Formatting.Call` | lib/active_record/mod_sql_log_subscriber.rb:47-54 | text: the statement alone when binds are empty, otherwise the statement, exactly two spaces, then the rendered binds. JSON: a line whose first key is `sql`, whose value reads back as the statement, and which continues with the `binds` member. Hash: the structured value with the statement and binds unchanged. Proc: the proc's result, unmodified |
| `Formatting.TextLineShowsBinds` | lib/active_record/mod_sql_log_subscriber.rb:48 | a text line equals the statement's length exactly when there are no binds |
| `SqlLogSubscriber.Handle` | lib/active_record/mod_sql_log_subscriber.rb:23-36 | configuration is unchanged. An event stopped by the first four checks changes nothing. Reaching the pattern caches it. A write happens iff all five checks pass and the format resolves; it is exactly one write, at `log_level`, of the formatted statement, and it caches the formatter. The call raises iff all checks pass and the format does not resolve; then nothing is written or cached |
| `SqlLogSubscriber.ModSqlLogSubscriber.constructor` | lib/active_record/mod_sql_log_subscriber.rb:17-21 | a new subscriber's state is `Defaults()`: it is enabled, at `:info`, with `:text`, the nine default targets, empty caches and no writes |
| `SqlLogSubscriber.ModSqlLogSubscriber.TargetSqlChecker` | lib/active_record/mod_sql_log_subscriber.rb:40-42 | returns the cached pattern, or builds one from the current targets and caches it; nothing else changes |
| `SqlLogSubscriber.ModSqlLogSubscriber.ResolveFormatter` | lib/active_record/mod_sql_log_subscriber.rb:44-58 | returns the cached formatter, or resolves `log_format` and caches the result only on success; nothing else changes |
| `SqlLogSubscriber.ModSqlLogSubscriber.Sql` | lib/active_record/mod_sql_log_subscriber.rb:23-36 | the object's new state and the call's outcome are those `Handle` gives for its old state |
| `SubscriberProperties.CachedCheckerIgnoresTargets` | lib/active_record/mod_sql_log_subscriber.rb:41 | with a cached pattern, the current `target_statements` has no effect on outcome or writes |
| `SubscriberProperties.CachedFormatterIgnoresFormat` | lib/active_record/mod_sql_log_subscriber.rb:45 | with a cached formatter, the current `log_format` has no effect on outcome or writes |
| `SubscriberProperties.TargetsFixedAfterFirstCheck` | lib/active_record/mod_sql_log_subscriber.rb:32 | after a call that reached the pattern, later changes to `target_statements` do not affect the next event |
| `SubscriberProperties.FormatFixedAfterFirstWrite` | lib/active_record/mod_sql_log_subscriber.rb:35 | after a call that wrote, later changes to `log_format`, even to an unsupported value, do not affect the next event |
| `SubscriberProperties.RaiseRepeats` | lib/active_record/mod_sql_log_subscriber.rb:55-56 | a raise caches nothing: the same event raises again with the same message and still writes nothing |
| `SubscriberProperties.CorrectedFormatTakesEffect` | lib/active_record/mod_sql_log_subscriber.rb:45-54 | after a raise, correcting `log_format` makes the same event produce exactly one write with the new format |
| `SubscriberProperties.UnsupportedFormatSilentWhenFiltered` | lib/active_record/mod_sql_log_subscriber.rb:32-35 | with an unsupported format and no cached formatter, a call raises exactly when the event passes all five checks |
| `DefaultTargets.DefaultTargetsShape` | lib/active_record/mod_sql_log_subscriber.rb:21 | the default targets are their own alternatives, none is empty, and none starts with whitespace |
| `DefaultTargets.SelectRejected` | spec/active_record/mod_sql_log_subscriber_spec.rb:28-36 | `SELECT * FROM users` fails the default pattern |
| `DefaultTargets.BareInsertAccepted` | spec/active_record/mod_sql_log_subscriber_spec.rb:243 | `INSERT` passes the default pattern |
| `DefaultTargets.DeleteAccepted` | spec/active_record/mod_sql_log_subscriber_spec.rb:70-82 | `DELETE FROM users WHERE id = $1` passes the default pattern |
| `DefaultTargets.InsertAccepted` | spec/active_record/mod_sql_log_subscriber_spec.rb:38-52 | `INSERT INTO users VALUES ($1, $2)` passes the default pattern |
| `DefaultTargets.IndentedRollbackAccepted` | lib/active_record/mod_sql_log_subscriber.rb:41 | `"  \tROLLBACKED"` passes: leading whitespace is skipped and no word boundary is required |
| `SubscriberExamples.QualifiesOnFreshSubscriber` | lib/active_record/mod_sql_log_subscriber.rb:24-32 | on a fresh subscriber, an event named `SQL`, not cached, with an accepted statement passes all five checks |
| `SubscriberExamples.TextFormatExample` | spec/active_record/mod_sql_log_subscriber_spec.rb:173-188 | the DELETE event with `id = 1` is written once at `:info` as `DELETE FROM users WHERE id = $1  {:id=>1}` |
| `SubscriberExamples.JsonFormatExample` | spec/active_record/mod_sql_log_subscriber_spec.rb:190-205 | with `:json`, it is written as `{"sql":"DELETE FROM users WHERE id = $1","binds":{"id":1}}` |
| `SubscriberExamples.HashFormatExample` | spec/active_record/mod_sql_log_subscriber_spec.rb:207-221 | with `:hash`, it is written as the structured value of the statement and its binds |
| `SubscriberExamples.CustomProcExample` | spec/active_record/mod_sql_log_subscriber_spec.rb:223-237 | with a proc returning `'custom proc'`, that value is written |
| `SubscriberExamples.UnexpectedFormatExample` | spec/active_record/mod_sql_log_subscriber_spec.rb:239-245 | with `:unexpected`, `INSERT` raises "Unexpected log format: unexpected" and nothing is written |
| `SubscriberExamples.SkippedExamples` | spec/active_record/mod_sql_log_subscriber_spec.rb:124-166 | SELECT, a disabled subscriber, nil SQL, a cached result and the `EXPLAIN` payload name each write nothing |

## Left out

- `type_casted_binds` (line 34) is not part of this model. Binds arrive already
  cast, as an ordered list of name/value pairs. Bind values are integers,
  strings, booleans and nil; dates, floats and other Ruby objects are not
  modelled.
- `Hash#inspect` string escaping is not modelled. String values are shown
  between double quotes as they are. Symbol keys that need quoting are not
  modelled either. The `{:key=>value}` style of Ruby before 3.4 is used.
- Strings with invalid bytes are not represented: a statement is a sequence of
  characters. In Ruby, the pattern check at line 32 raises `ArgumentError`
  ("invalid byte sequence") on such a statement before anything is written,
  and `JSON.generate` fails on invalid UTF-8. Neither failure is modelled.
- A Hash's collapsing of duplicate keys is not modelled: binds are kept as a
  list.
- Case folding is ASCII only. Ruby's `i` flag also folds some non-ASCII
  characters (for example U+017F to `s`). Targets are treated as literal keywords,
  so regular-expression metacharacters in a user-set target are not interpreted.
- `IGNORE_PAYLOAD_NAMES` is taken as `{"SCHEMA", "EXPLAIN"}`, the value in
  `ActiveRecord::LogSubscriber`. That class is not part of this model.
- Logger dispatch: `send(log_level, ...)` is modelled as a closed `Level` enum.
  Other cases are not modelled:
  - a `log_level` that names no logger method (Ruby raises `NoMethodError`);
  - a subscriber with no logger, where `LogSubscriber` drops the write after the
    formatter has run.
- Exceptions raised by a custom proc or by the logger itself are not modelled.
  The proc is a pure function that returns an `Output`.
- Configuration sits in the instance's fields. The class-level defaults that
  `ActiveSupport::Configurable` lets instances inherit and override are not
  modelled. Shared use of that configuration across threads is not modelled
  either.
- Event construction (`ActiveSupport::Notifications::Event`, timestamps, ids) is
  not modelled. The scripts bin/setup_db.rb and bin/connect_db.rb (configuration
  file reading, database connection and schema setup) are not part of this model.
