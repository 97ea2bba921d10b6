# Even/odd agent league — a Dafny model

The system runs a league of AI agents who play the "even/odd" game. A league manager registers
players and referees, builds a round-robin schedule and keeps the standings. Referees run
the matches: each player picks "even" or "odd", a number is drawn, and its parity decides the
winner. Agents talk in JSON-RPC 2.0 requests whose parameters carry a `league.v2` envelope.
The envelope holds the protocol version, the message type, a `role:id` sender, a UTC timestamp,
a conversation id and an optional auth token. A shared SDK (`SHARED/league_sdk`) supplies:

- the MCP server's request pipeline: rate limit, envelope, auth, then dispatch;
- the MCP client's retry-and-circuit-breaker send loop;
- token authentication, a sliding-window rate limiter and display-name sanitizing;
- circuit breakers and error recovery;
- protocol-version negotiation;
- the even/odd rules;
- standings and in-memory repositories.

The project models those parts, plus:

- the league manager's handlers, scheduler and standings;
- the referee's orchestration and parity collection;
- the two player implementations (state machines, handlers and deterministic strategies);
- the stand-alone league simulation.

How the Python maps to Dafny:

- Each core source file becomes one module. Pure code becomes functions and lemmas.
- An object whose methods update its fields becomes a `class` with those fields. Its methods
  are proved against specification functions, which the lemmas then reason about.
- JSON dictionaries become the `Json` datatype (`json_value.dfy`).
- A raised exception becomes an `Err` of `Result` (`wrappers.dfy`).
- Anything the code takes from the environment becomes a parameter:
  - the wall clock (an integer count of seconds);
  - random draws;
  - uuids and freshly issued tokens;
  - the outcome of each HTTP attempt;
  - the answer of each awaited agent.
- Python's integers are unbounded, and so are Dafny's. Strings are `seq<char>`.
- Near-duplicate revisions each keep their own module, and differ where the code differs. What
  they compute alike is defined once: the random pick and the counting of an opponent's
  choices (`Parity`), a dictionary's values in insertion order and the stable ranking sort
  (`Ranking`), and the greedy round-robin packing (`RoundRobin`).

Behaviour that follows the code where the docstrings suggest otherwise:

- `$` in the timestamp and version patterns also matches just before one trailing newline, as
  Python's `re` does. `\d` is read as an ASCII digit.
- An error response built by `create_error_response` always carries the `data` key, as `null`
  when no data is given. `exclude_none` only drops the model's own fields, not the entries of
  its `error` dictionary.
- The manager issues auth tokens at registration but never registers them with its server's
  validator.
- The simple circuit breaker in `src/utils/resilience.py` treats a failure time of 0 as "no
  failure yet", because it tests the time for truth.
- A player that is not registered has a player id of `None`. When it receives GAME_OVER with
  no winner, it counts the match as a win, because `None == None`.
- A match report whose result is a list or a dictionary makes `update_result` register the
  player and count one more game before the scoring lookup raises `TypeError`. The standings
  entry is then left with one game more than its wins, draws and losses (`ReportKeepsTable`).
- `MCPClient.send` spreads the payload as keyword arguments of `_build_envelope`. A payload key
  `self`, `message_type` or `conversation_id` therefore raises `TypeError` once the breaker
  has allowed the call, before any POST.
- `str.lower()` is modelled on ASCII letters. No other character lower-cases to a letter of
  "even" or "odd", so `validate_parity` accepts the same strings.
- The simulation's `generate_schedule` appends to the schedule, so a second call schedules
  every pairing twice.
- The "below minimum version" branch of `get_version_mismatch_error` cannot be reached. Every
  incompatible version either fails to parse or has a major other than 2 (`IsCompatibleIff`).
  The major check comes first, so "1.5.0" gets the major-mismatch message (`NeverBelowMinimum`).

## Model

| member | source | states |
|---|---|---|
| ProtocolEnvelope.ValidateUtcTimestamp | src/protocol/envelope.py:42-70 | a timestamp without a `Z` or `+00:00` ending is refused; otherwise it is accepted iff the ISO parser accepts it (a `Z` replaced by `+00:00`); an accepted value is returned unchanged |
| ProtocolEnvelope.SuffixCheckedBeforeParsing | src/protocol/envelope.py:56-59 | with the wrong ending the verdict does not depend on the parser at all |
| ProtocolEnvelope.AgainstSdkCheck | src/protocol/envelope.py:56-59 | every timestamp the SDK's `validate_utc` accepts has a UTC ending here, except one ending in a newline, which this validator refuses before parsing |
| ProtocolEnvelope.ValidateSenderFormat | src/protocol/envelope.py:72-100 | "league_manager" passes as is; any other sender needs a ':' and passes iff the text before the first ':' is player or referee; an accepted value is returned unchanged |
| ProtocolEnvelope.FormattedSenders | src/protocol/envelope.py:87-100 | a `type:id` sender passes iff its type is player or referee, whatever the id (even empty) |
| ProtocolEnvelope.GenerateConversationId | src/protocol/envelope.py:108-110 | the id is the prefix, a dash and the first twelve characters of the uuid hex (13 more characters than the prefix) |
| ProtocolEnvelope.ConversationIdOrFresh | src/protocol/envelope.py:141 | a non-empty caller id is kept; None or "" becomes a fresh "conv-" id |
| ProtocolEnvelope.CreateEnvelope | src/protocol/envelope.py:113-146 | the envelope is built iff both validators pass; it has protocol "league.v2", a timestamp the SDK check accepts, the caller's fields unchanged and the kept-or-fresh conversation id; otherwise one or two validation errors are reported |
| Auth.Prune | SHARED/league_sdk/auth.py:46-48 | the pruned list keeps exactly the times after the window start, never grows, and every kept time is inside the window |
| Auth.PruneWindow | SHARED/league_sdk/auth.py:46-48 | the comprehension as a loop computes exactly `Prune` of the sender's list |
| Auth.Admit | SHARED/league_sdk/auth.py:42-56 | a call is allowed iff fewer than `max_requests` recent times remain; the sender's list becomes the pruned list, plus `now` when allowed; other senders are untouched |
| Auth.AdmitKeepsLimit | SHARED/league_sdk/auth.py:51-55 | if every stored list holds at most `max(0, max_requests)` times, it still does after a call |
| Auth.RemainingAgreesWithAdmit | SHARED/league_sdk/auth.py:32-66 | `get_remaining > 0` exactly when `is_allowed` would allow, and an allowed call (positive window) lowers the remaining quota by one |
| Auth.RateLimiter.constructor | SHARED/league_sdk/auth.py:22-30 | a new limiter has the given limit and window and no recorded requests |
| Auth.RateLimiter.IsAllowed | SHARED/league_sdk/auth.py:32-56 | the verdict and the new request table are those of `Admit` on the old table; the per-sender bound is kept |
| Auth.RateLimiter.GetRemaining | SHARED/league_sdk/auth.py:58-66 | the remaining count is at most `max(0, max_requests)` and is positive iff the next call would be allowed; nothing changes |
| Auth.RegisterSpec | SHARED/league_sdk/auth.py:80-83 | registering writes token→agent and agent→token into the two tables |
| Auth.UnregisterSpec | SHARED/league_sdk/auth.py:85-89 | unregistering drops the agent's entry and its current token when that token is non-empty; other tokens stay |
| Auth.RegisterThenValidate | SHARED/league_sdk/auth.py:80-115 | after `register_token(a, t)` the token names `a`, and `validate_token(t)` and `validate_token(t, a)` hold iff `len(t) >= 16` |
| Auth.ShortTokensRejected | SHARED/league_sdk/auth.py:106-107 | a missing token or one shorter than 16 characters never validates, whatever the tables hold |
| Auth.SupersededTokenSurvives | SHARED/league_sdk/auth.py:80-89 | after re-registering an agent and unregistering it, the superseded token still validates for that agent and the newer one does not |
| Auth.AuthTokenValidator.constructor | SHARED/league_sdk/auth.py:76-78 | both tables start empty |
| Auth.AuthTokenValidator.RegisterToken | SHARED/league_sdk/auth.py:80-83 | the new tables are `RegisterSpec` of the old ones |
| Auth.AuthTokenValidator.UnregisterToken | SHARED/league_sdk/auth.py:85-89 | the new tables are `UnregisterSpec` of the old ones |
| Auth.AuthTokenValidator.ValidateToken | SHARED/league_sdk/auth.py:91-115 | a valid token is present, at least 16 long and registered, and when a non-empty agent is expected it belongs to that agent |
| Auth.AuthTokenValidator.GetAgentForToken | SHARED/league_sdk/auth.py:117-119 | the agent is returned iff the token is registered, and it is the registered agent |
| Auth.RequiresAuth | SHARED/league_sdk/auth.py:170-185 | true exactly for the nine listed message types (case-sensitive); both registration requests are exempt |
| Auth.SanitizeDisplayName | SHARED/league_sdk/auth.py:122-140 | empty input gives ""; otherwise the result is the escaped name, stripped of the whitespace `str.isspace` knows (Unicode included), cut to at most 50 characters, and the whole of it when that fits |
| Auth.PruneKeepsRecent | SHARED/league_sdk/auth.py:46-48 | pruning a list whose times all lie inside the window changes nothing, so pruning twice equals pruning once |
| Auth.PruneAppend | SHARED/league_sdk/auth.py:46-48 | pruning keeps the order: a time appended after the window start survives at the end |
| CircuitBreakers.TransitionTo | SHARED/league_sdk/circuit_breaker.py:61-70 | the new state is set and stamped; CLOSED zeroes both counts, HALF_OPEN zeroes the successes, OPEN keeps them |
| CircuitBreakers.Observe | SHARED/league_sdk/circuit_breaker.py:53-59 | only an OPEN breaker whose last failure is at least `timeout_seconds` old changes, to HALF_OPEN with zero successes; an OPEN breaker always has a failure time |
| CircuitBreakers.Success | SHARED/league_sdk/circuit_breaker.py:72-79 | OPEN ignores a success, CLOSED resets the failures, HALF_OPEN counts it and closes with both counts zero once the threshold is reached |
| CircuitBreakers.Failure | SHARED/league_sdk/circuit_breaker.py:81-90 | every failure adds one and stamps the time; HALF_OPEN reopens, CLOSED opens iff the count reaches the threshold, OPEN stays OPEN |
| CircuitBreakers.CanExecute | SHARED/league_sdk/circuit_breaker.py:92-95 | false exactly when the breaker is OPEN and the timeout has not yet elapsed |
| CircuitBreakers.HalfOpenClosesAfterThreshold | SHARED/league_sdk/circuit_breaker.py:72-77 | from a fresh HALF_OPEN state, k successes close the circuit iff k reaches the success threshold; before that it stays HALF_OPEN having counted k |
| CircuitBreakers.OpenFailurePostpones | SHARED/league_sdk/circuit_breaker.py:81-90 | a failure while OPEN restarts the timeout, so calls are refused until a full timeout after it |
| CircuitBreakers.HalfOpenOnlyByTimeout | SHARED/league_sdk/circuit_breaker.py:53-90 | recording a success or a failure never enters HALF_OPEN; only the timeout check does |
| CircuitBreakers.ClosedOpensAtThreshold | SHARED/league_sdk/circuit_breaker.py:81-90 | a fresh CLOSED breaker counts each failure and is OPEN after exactly `failure_threshold` failures, not before |
| CircuitBreakers.CircuitBreaker.constructor | SHARED/league_sdk/circuit_breaker.py:43-51 | a new breaker is CLOSED with zero counts and no failure time |
| CircuitBreakers.CircuitBreaker.GetState | SHARED/league_sdk/circuit_breaker.py:53-59 | the new counters are `Observe` of the old ones and the state read is the new state |
| CircuitBreakers.CircuitBreaker.RecordSuccess | SHARED/league_sdk/circuit_breaker.py:72-79 | the new counters are `Success` of the old ones |
| CircuitBreakers.CircuitBreaker.RecordFailure | SHARED/league_sdk/circuit_breaker.py:81-90 | the new counters are `Failure` of the old ones |
| CircuitBreakers.CircuitBreaker.CanExecuteNow | SHARED/league_sdk/circuit_breaker.py:92-95 | the verdict is `CanExecute` of the old counters, and the timeout check's transition is applied |
| CircuitBreakers.WithCircuitBreaker | SHARED/league_sdk/circuit_breaker.py:113-141 | an open circuit raises without calling; otherwise a returned value records a success and is passed on, and a raised error records a failure and is re-raised |
| CircuitBreakers.CircuitBreakerRegistry.constructor | SHARED/league_sdk/circuit_breaker.py:151-152 | the registry starts empty |
| CircuitBreakers.CircuitBreakerRegistry.Get | SHARED/league_sdk/circuit_breaker.py:154-166 | a known endpoint's breaker is returned unchanged and the thresholds are ignored; a new endpoint gets a fresh CLOSED breaker built from them |
| ErrorHandlers.GetRecoveryAction | SHARED/league_sdk/error_handlers.py:22-58 | a list or dict code cannot be looked up and raises TypeError; otherwise E001, E009 and E010 retry; E005, E011 and E012 re-register; exactly E003 aborts; IGNORE is never chosen; any other hashable code, string or not, is LOG_ONLY |
| ErrorHandlers.ParseError | SHARED/league_sdk/error_handlers.py:87-97 | missing fields take the defaults "UNKNOWN", "UNKNOWN_ERROR", "", false, "unknown" and None; present fields are copied as they are |
| ErrorHandlers.Record | SHARED/league_sdk/error_handlers.py:173-175 | the code's count goes up by exactly one (from zero if new); every other count is unchanged |
| ErrorHandlers.Callbacks | SHARED/league_sdk/error_handlers.py:150-171 | at most one callback runs: re-register only for RE_REGISTER with a callback set, abort only for ABORT with a callback set; RETRY only logs |
| ErrorHandlers.Acknowledgement | SHARED/league_sdk/error_handlers.py:122 | the reply has exactly the keys status ("acknowledged") and error_code (the parsed code) |
| ErrorHandlers.ErrorHandler.constructor | SHARED/league_sdk/error_handlers.py:68-85 | no counts and no callbacks run yet |
| ErrorHandlers.ErrorHandler.HandleError | SHARED/league_sdk/error_handlers.py:99-148 | for a hashable code: the count goes up by one, the action's callback runs and the acknowledgement is returned; an unhashable code raises before anything changes |
| ErrorHandlers.ErrorHandler.ResetStats | SHARED/league_sdk/error_handlers.py:181-183 | all counts are gone |
| ErrorHandlers.ErrorHandler.GetErrorStats | SHARED/league_sdk/error_handlers.py:177-179 | only codes that arrived are listed, each a valid dictionary key counted at least once |
| ProtocolErrors.FromValue | src/protocol/errors.py:13-38 | exactly the nine listed strings name a code, and the code found carries that string as its value |
| ProtocolErrors.IsRetryable | src/protocol/errors.py:41-51 | retryable exactly for E001 and E009, unknown strings included as not retryable; agrees with the SDK's string test |
| ProtocolErrors.EveryCodeNamed | src/protocol/errors.py:107-146 | every code has its own table entry, so the UNKNOWN default is never used and no two codes share a name |
| ProtocolErrors.CreateErrorContext | src/protocol/errors.py:96-154 | an error_code keyword raises TypeError (multiple values for the argument); otherwise the keys are the four standard fields plus the keyword fields, keyword fields winning on a shared key, and the code's value, its known name and its retryability are reported |
| ProtocolErrors.ContextRetryable | src/protocol/errors.py:148-153 | a context without overrides is marked retryable only for timeouts and connection failures |
| EvenOdd.DrawNumber | SHARED/league_sdk/game_rules/even_odd.py:42-44 | the number drawn lies in [min, max]; an empty range is the error randint raises |
| EvenOdd.EveryNumberDrawable | SHARED/league_sdk/game_rules/even_odd.py:42-44 | every number of the range can be drawn |
| EvenOdd.GetParity | SHARED/league_sdk/game_rules/even_odd.py:46-48 | "even" exactly for numbers divisible by two, "odd" exactly for the others, negatives included |
| EvenOdd.Decide | SHARED/league_sdk/game_rules/even_odd.py:74-108 | the outcome records the drawn number, its parity and both choices unchanged |
| EvenOdd.DetermineMatchOutcome | SHARED/league_sdk/game_rules/even_odd.py:50-108 | a supplied number is used as it is; otherwise the drawn number lies in the game's range |
| EvenOdd.DrawIffSameCorrectness | SHARED/league_sdk/game_rules/even_odd.py:76-98 | a draw exactly when both players or neither named the right parity |
| EvenOdd.OutcomeCases | SHARED/league_sdk/game_rules/even_odd.py:76-98 | exactly one of: A wins and B loses, B wins and A loses, both draw; the winner is the one correct player |
| EvenOdd.NeverTechnicalLoss | SHARED/league_sdk/game_rules/even_odd.py:79-98 | results are only WIN, LOSS or DRAW |
| EvenOdd.SwapPlayers | SHARED/league_sdk/game_rules/even_odd.py:76-98 | swapping the players swaps their results and keeps the winner |
| EvenOdd.DetermineWinner | SHARED/league_sdk/game_rules/even_odd.py:111-131 | the results of a game between "A" and "B"; the winner is player_a or player_b exactly when that side won, and absent exactly on a draw |
| Parity.NameRoundTrip | src/protocol/game_messages.py:18-22 | the two choice names and the two parities correspond one to one; only "even" and "odd" name a choice |
| Parity.OfNumber | SHARED/league_sdk/helpers.py:106-108 | even exactly when the number is divisible by two, odd exactly otherwise |
| Parity.CoinChoice | agents/player_template/strategies/adaptive.py:46 | a random pick is always "even" or "odd" |
| Parity.Count | simulation/player.py:54-55 | a count of an opponent's choices never exceeds the history's length |
| Parity.CountUniform | agents/player_template/strategies/adaptive.py:49-50 | a history of one value counts it every time and any other value never |
| GameMessages.RoleOf | src/protocol/game_messages.py:25-29 | exactly PLAYER_A and PLAYER_B name a role, and the role found carries that value |
| GameMessages.StatusOf | src/protocol/game_messages.py:32-37 | exactly WIN, DRAW and TECHNICAL_LOSS are statuses; a plain LOSS is not |
| GameMessages.ValidateParity | src/protocol/game_messages.py:122-130 | a string is accepted exactly when its lower-case form is "even" or "odd", and becomes that choice; any other string gets the validator's message; a non-string fails the enum check |
| GameMessages.ValidateParityIgnoresCase | src/protocol/game_messages.py:122-130 | strings that lower-case alike validate alike, so "EVEN" is the even choice |
| Helpers.AnchoredText | SHARED/league_sdk/helpers.py:45-49 | the text a `^...$` pattern must match: the input itself, or the input without one final newline |
| Helpers.FormsBySuffix | SHARED/league_sdk/helpers.py:44-47 | the Z pattern and the +00:00 pattern are the date-time shape followed by exactly that suffix |
| Helpers.ValidateUtcExactly | SHARED/league_sdk/helpers.py:29-49 | a timestamp validates exactly when it is the date-time shape followed by Z or +00:00, optionally followed by one newline; the empty string is rejected |
| Helpers.DigitsNotRangeChecked | SHARED/league_sdk/helpers.py:44-49 | field values are not range-checked: month 99 and second 99 pass |
| Helpers.OtherZonesRejected | SHARED/league_sdk/helpers.py:37-49 | a +02:00 offset and a missing zone are rejected |
| Helpers.FourDigits | SHARED/league_sdk/helpers.py:14-16 | a four-digit year prints as four characters, so %Y fills its field |
| Helpers.UtcNowValidates | SHARED/league_sdk/helpers.py:14-49 | every timestamp utc_now produces passes validate_utc |
| Helpers.ParseSender | SHARED/league_sdk/helpers.py:52-65 | fails, with the sender in the message, exactly when there is no ':'; otherwise the type holds no ':' and type, ':' and id put back together give the sender |
| Helpers.ParseFormatRoundTrip | SHARED/league_sdk/helpers.py:52-79 | formatting then parsing gives back type and id whenever the type holds no ':' (the id may) |
| Helpers.FormatParseRoundTrip | SHARED/league_sdk/helpers.py:52-79 | parsing then formatting gives back every sender that holds a ':' |
| Helpers.CalculatePoints | SHARED/league_sdk/helpers.py:87-103 | 3 exactly for WIN, 1 exactly for DRAW, 0 for every other string |
| Helpers.IsRetryableError | SHARED/league_sdk/helpers.py:82-84 | true exactly for the codes E001 and E009 |
| Helpers.DetermineParity | SHARED/league_sdk/helpers.py:106-108 | the name of the number's parity; "even" exactly for numbers divisible by two |
| JsonRpc.ErrorObject | src/protocol/jsonrpc.py:58-72 | the dumped error has exactly code, message and data, data present even when it is None |
| JsonRpc.CreateRequest | src/protocol/jsonrpc.py:75-92 | keys jsonrpc "2.0", method and params, plus id exactly when an id is given, each holding what was passed |
| JsonRpc.CreateResponse | src/protocol/jsonrpc.py:95-116 | jsonrpc "2.0" always; result, error and id each present exactly when given, holding what was passed; no other key |
| JsonRpc.CreateErrorResponse | src/protocol/jsonrpc.py:119-138 | no result; an error object carrying the given code, message and data; id present exactly when given |
| JsonRpc.IdEchoed | src/protocol/jsonrpc.py:75-116 | a request and its success response with the same id carry the same id value, and that response has no error |
| LeagueManagerAgent.Ids | agents/league_manager/handlers.py:37-39 | a counter at n has handed out exactly n ids |
| LeagueManagerAgent.IdsAt | agents/league_manager/handlers.py:37-39 | the i-th id handed out is the prefix followed by i + 1 in two digits |
| LeagueManagerAgent.IdsBelow | agents/league_manager/handlers.py:37-39 | a number the counter has not reached yet names no id handed out |
| LeagueManagerAgent.IdsDistinct | agents/league_manager/handlers.py:37-39 | the ids a counter hands out never repeat |
| LeagueManagerAgent.RosterSize | agents/league_manager/main.py:41-44 | a registry filled only by its counter has exactly counter entries, in distinct order |
| LeagueManagerAgent.AdmitKeepsValid | agents/league_manager/handlers.py:37-49 | the id handed out was not registered before, and the registry still holds exactly the ids handed out |
| LeagueManagerAgent.Roster.NextId | agents/league_manager/handlers.py:38-39 | the next id the counter hands out (the prefix and the new counter in two digits), held by no registered player yet |
| LeagueManagerAgent.PlayerRecord | agents/league_manager/handlers.py:33-49 | the stored record has exactly the five keys; display name defaults to "Unknown", endpoint to None |
| LeagueManagerAgent.RefereeRecord | agents/league_manager/handlers.py:73-87 | the stored record has exactly the four keys; endpoint defaults to None |
| LeagueManagerAgent.ResultText | agents/league_manager/handlers.py:111-116 | a list or dictionary result is no dictionary key; a string is itself; any other value scores 0 and counts as a loss, like an unknown string |
| LeagueManagerAgent.SenderPlayer | agents/league_manager/handlers.py:139-142 | the player is the non-empty text after the last ':' of a string sender; other senders either give no player or raise |
| LeagueManagerAgent.Notified | agents/league_manager/handlers.py:171-191 | at most one announcement per match, each for a match of the round |
| LeagueManagerAgent.AllNotified | agents/league_manager/handlers.py:171-191 | when every match has a registered referee, every match of the round is announced, in order |
| LeagueManagerAgent.KindOf | agents/league_manager/handlers.py:130-143 | each of the four query types is recognised exactly by its string |
| LeagueManagerAgent.ReplyKwargs | agents/league_manager/handlers.py:63-69 | the reply fields plus the request's conversation_id (None when absent) |
| LeagueManagerAgent.ConversationEchoed | agents/league_manager/handlers.py:63-69 | every reply carries the request's conversation_id, and a null one when the request had none, rather than a fresh one |
| LeagueManagerAgent.NextMatchData | agents/league_manager/handlers.py:139-143 | {} without a player; otherwise exactly the key match, holding the player's next scheduled match or None |
| LeagueManagerAgent.NextMatchLookup | agents/league_manager/handlers.py:139-143 | the scheduler's loop gives exactly NextMatchData for the player |
| LeagueManagerAgent.ReportSpec | agents/league_manager/handlers.py:106-126 | a report is accepted exactly when both ids are strings and both results can be dictionary keys; a string id with a list or dictionary result is registered and gets one more game played before the report stops |
| LeagueManagerAgent.ReportKeepsTable | agents/league_manager/handlers.py:106-116 | a report keeps the standings keyed; an accepted one adds exactly two games played; a bad player A id changes nothing; a list or dictionary result for player A adds one game played; the counters stay consistent exactly when no string id reached comes with a list or dictionary result |
| LeagueManagerAgent.ApplyReport | agents/league_manager/handlers.py:108-116 | the standings become what ReportSpec says: A's update runs before B's is started, and an update that raises on its result has already counted the game |
| LeagueManagerAgent.NewManagerServer | agents/league_manager/main.py:51-68 | a fresh server with sender manager:MANAGER and exactly the four message types handled |
| LeagueManagerAgent.LeagueManager.constructor | agents/league_manager/main.py:25-49 | empty registries with counters at 0, empty standings and schedule, the league not started, the four handlers |
| LeagueManagerAgent.LeagueManager.AdmitPlayer | agents/league_manager/handlers.py:37-49 | the next P id, not registered before, is stored with its record; referees untouched |
| LeagueManagerAgent.LeagueManager.AdmitReferee | agents/league_manager/handlers.py:76-87 | the next REF id, not registered before, is stored with its record; players untouched |
| LeagueManagerAgent.LeagueManager.HandlePlayerRegistration | agents/league_manager/handlers.py:31-69 | a new player id with its record, a standings entry and a REGISTERED response carrying id and token; a player_meta that is not a dictionary changes nothing |
| LeagueManagerAgent.LeagueManager.HandleRefereeRegistration | agents/league_manager/handlers.py:71-104 | the referee counterpart, with no standings entry |
| LeagueManagerAgent.LeagueManager.HandleMatchResult | agents/league_manager/handlers.py:106-126 | the standings become what ReportSpec says, including the partial update before a raise; an accepted report answers ACCEPTED and adds one to the matches played |
| LeagueManagerAgent.LeagueManager.QueryData | agents/league_manager/handlers.py:128-143 | standings, schedule summary, stats or next match by query type, {} for any other type; only a next-match query can raise |
| LeagueManagerAgent.LeagueManager.HandleQuery | agents/league_manager/handlers.py:128-150 | the response carries the query type and the data QueryData gives, the next match being found by the scheduler's loop |
| LeagueManagerAgent.LeagueManager.StartRound | agents/league_manager/handlers.py:152-191 | referees are assigned over the schedule; no current round or an empty one completes the league; otherwise the round's matches whose referee is registered are the ones logged as assigned, all of them once any referee is registered |
| LeagueManagerAgent.LeagueManager.StartLeague | agents/league_manager/main.py:88-100 | runs only once; schedules the registered players in registration order from round 0; the league completes at once with fewer than two players |
| LeagueManagerAgent.LeagueManager.CheckAndStartLeague | agents/league_manager/main.py:70-86 | the league starts exactly when both thresholds are met and it had not started; it then holds the round-robin schedule of the registered players, refereed when referees exist, from round 0, registries unchanged; otherwise nothing changes |
| McpClient.AllRetryableExtend | SHARED/league_sdk/mcp_client.py:142-163 | a run of transient failures extends by one more transient failure |
| McpClient.Final | SHARED/league_sdk/mcp_client.py:133-165 | the last POST's result is its body exactly when it answered 2xx with a JSON body; otherwise the error that POST raised |
| McpClient.EventOf | SHARED/league_sdk/mcp_client.py:138-163 | a POST tells the breaker a success exactly when it answered 2xx, a failure exactly when it was a timeout, a refused connection or a 5xx, and nothing otherwise |
| McpClient.Hear | SHARED/league_sdk/mcp_client.py:138-163 | telling the breaker about one POST keeps its counters consistent |
| McpClient.ToldReplaysEvents | SHARED/league_sdk/mcp_client.py:131-163 | being told about the POSTs one by one is replaying exactly their breaker events, in order |
| McpClient.FailuresFromHalfOpen | SHARED/league_sdk/mcp_client.py:114-163 | from HALF_OPEN, transient failures reopen the breaker at the first one, and the remaining POSTs still go out and each counts as a further failure |
| McpClient.LinearBackoffs | SHARED/league_sdk/mcp_client.py:145-162 | the wait after failed attempt k is backoff times k + 1: linear, not exponential |
| McpClient.BuildEnvelope | SHARED/league_sdk/mcp_client.py:72-89 | for keyword arguments that do not name its own parameters: the five header fields, a generated conversation id when the given one is missing or empty, the auth token only when non-empty, and the payload overriding the other fields |
| McpClient.PostWithRetries | SHARED/league_sdk/mcp_client.py:128-165 | at most max_retries + 1 POSTs, all but the last transient failures; a last transient failure only when the attempts ran out; the result is the last POST's; the breaker is told exactly those POSTs; no POST at all raises "Max retries exceeded" |
| McpClient.AttemptLoop | SHARED/league_sdk/mcp_client.py:131-163 | the loop stops at the first POST that is not a transient failure or when the attempts run out, keeping the last error |
| McpClient.Attempt | SHARED/league_sdk/mcp_client.py:132-163 | one POST: the breaker hears of it; the loop stops at a POST that is not a transient failure and at a 5xx on the last allowed attempt; a wait is added only after a transient failure with attempts left |
| McpClient.TellBreaker | SHARED/league_sdk/mcp_client.py:138-163 | the breaker's new counters are what Hear gives |
| McpClient.McpClient.constructor | SHARED/league_sdk/mcp_client.py:27-53 | the client keeps its sender, token, retry count and backoff |
| McpClient.McpClient.UpdateAuthToken | SHARED/league_sdk/mcp_client.py:171-173 | the token is replaced |
| McpClient.McpClient.Send | SHARED/league_sdk/mcp_client.py:95-165 | the endpoint's breaker is the one already registered, or a new one with the default thresholds; no other breaker changes; it is asked once, before any POST; open means no request and no POST; a payload key self, message_type or conversation_id raises TypeError with no POST and the breaker untouched; otherwise the JSON-RPC request carries the built envelope and the attempt loop decides the result and what the breaker hears |
| McpClient.McpClient.SendThrough | SHARED/league_sdk/mcp_client.py:95-165 | the same outcome for a given breaker: an open breaker, a clashing payload key, or a request whose POSTs and waits follow the attempt loop, the breaker hearing its verdict |
| McpServer.ErrorResponse | SHARED/league_sdk/mcp_server.py:145-156 | exactly jsonrpc, error and id, id always present; the error holds only code and message |
| McpServer.ValidateEnvelope | SHARED/league_sdk/mcp_server.py:124-133 | valid exactly when the five envelope keys are present, protocol is league.v2 and the timestamp is a string that validate_utc accepts; a truthy non-string timestamp raises |
| McpServer.CheckToken | SHARED/league_sdk/mcp_server.py:135-139 | a falsy token fails; a string token is valid exactly when the token validator accepts it |
| McpServer.MethodRequiresAuth | SHARED/league_sdk/mcp_server.py:99 | an unhashable method raises; only a string method that is in the protected set needs a token |
| McpServer.EarlyRejections | SHARED/league_sdk/mcp_server.py:75-82 | a body that is not JSON gets -32700 with a null id, one without jsonrpc "2.0" gets -32600 with its id, and neither uses any quota |
| McpServer.RejectionOrder | SHARED/league_sdk/mcp_server.py:84-111 | each error code is returned only when every earlier check passed: rate limit, then envelope, then auth token, then handler lookup |
| McpServer.AfterRateLimitCodes | SHARED/league_sdk/mcp_server.py:94-122 | after the rate limit, -32000 never appears, and -32602, -32001 and -32601 each imply the checks before them |
| McpServer.AfterEnvelopeCodes | SHARED/league_sdk/mcp_server.py:98-122 | after the envelope check, -32001 only for a protected method and -32601 only for a method without a handler |
| McpServer.DispatchCodes | SHARED/league_sdk/mcp_server.py:108-122 | handler lookup gives a result, -32603 or -32601, the last only when no handler is registered for the method |
| McpServer.ErrorResponseCode | SHARED/league_sdk/mcp_server.py:145-156 | an error response carries its code |
| McpServer.SuccessHasNoCode | SHARED/league_sdk/mcp_server.py:115-119 | a success response carries no error code |
| McpServer.QuotaSpentOnInvalidEnvelope | SHARED/league_sdk/mcp_server.py:89-96 | the rate limit comes first: an admitted request with a bad envelope gets -32602 and still uses up one of its sender's slots |
| McpServer.TokenOnlyForProtected | SHARED/league_sdk/mcp_server.py:98-103 | an unprotected method is never refused with -32001; a protected one with a valid envelope and no (or an empty) token always is |
| McpServer.MissingTokenRefused | SHARED/league_sdk/mcp_server.py:98-103 | a protected method with a valid envelope, an admitted sender and a falsy token is refused with -32001 |
| McpServer.HandlerOutcome | SHARED/league_sdk/mcp_server.py:108-122 | a request that passes every check is answered with the handler's result and the request's id, or -32603 with the exception text |
| McpServer.Server.constructor | SHARED/league_sdk/mcp_server.py:25-60 | sender is type:id; no handlers, no tokens, no request history; the limiter has the given limit and a 60-second window |
| McpServer.Server.HandleRequest | SHARED/league_sdk/mcp_server.py:73-122 | the reply and the limiter's new history are what HandleSpec gives for the old state; the limit and window do not change |
| McpServer.Server.RegisterAuthToken | SHARED/league_sdk/mcp_server.py:141-143 | the token tables become what the validator's registration gives |
| McpServer.Server.RegisterHandler | SHARED/league_sdk/mcp_server.py:158-160 | the handler table gains or replaces exactly that message type |
| McpServer.Server.BuildResponse | SHARED/league_sdk/mcp_server.py:162-171 | a self or message_type keyword raises TypeError; otherwise the five header fields plus the keyword fields, which win on a shared key; conversation_id is the given one or a fresh uuid; the timestamp passes validate_utc |
| McpServer.ResponseHeader | SHARED/league_sdk/mcp_server.py:164-170 | exactly the five header fields: protocol league.v2, the message type, the sender, the timestamp and the conversation id |
| McpServer.SpreadFields | SHARED/league_sdk/mcp_server.py:164-171 | spreading the keyword fields over the header yields the union of their keys, each keyword value, and the header value for every other key |
| McpServer.BuiltResponsePassesEnvelope | SHARED/league_sdk/mcp_server.py:124-171 | a response, when it is built without overriding protocol or timestamp, passes the server's own envelope check |
| PlayerAgentHandlers.Route | src/agents/player_agent/handlers.py:56-75 | a message type is routed exactly when it is in the table, and then it is the lower- or upper-case name of its handler |
| PlayerAgentHandlers.RouteBothSpellings | src/agents/player_agent/handlers.py:56-75 | every handler is reached by both its lower-case and its upper-case name |
| PlayerAgentHandlers.RouteUnknown | src/agents/player_agent/handlers.py:56-102 | a type is unrouted exactly when it is neither spelling of any handler's name |
| PlayerAgentHandlers.PlayerSender | src/agents/player_agent/handlers.py:139 | the sender is player: followed by the id, and player:None before registration |
| PlayerAgentHandlers.OptStr | src/agents/player_agent/handlers.py:142 | an absent value is sent as null, a present one as that string |
| PlayerAgentHandlers.JoinAck | src/agents/player_agent/handlers.py:136-147 | exactly the ten GAME_JOIN_ACK fields, echoing the invitation's conversation, league, round and match, with accept true |
| PlayerAgentHandlers.ParityResponse | src/agents/player_agent/handlers.py:193-205 | exactly the eleven CHOOSE_PARITY_RESPONSE fields, echoing the call's conversation, league, round and match, with the player's id and the choice made |
| PlayerAgentHandlers.OurResult | src/agents/player_agent/handlers.py:226-232 | WIN exactly when the winner id equals the player's id; otherwise DRAW exactly for a draw status and LOSS for the rest |
| PlayerAgentHandlers.OurResultEdgeCases | src/agents/player_agent/handlers.py:226-232 | a technical loss that does not name this player counts as an ordinary LOSS; a game without a winner is a WIN for a player that never registered |
| PlayerAgentHandlers.Acknowledged | src/agents/player_agent/handlers.py:250-321 | the acknowledgement has exactly the key status, "acknowledged" |
| PlayerAgentHandlers.GameOverAck | src/agents/player_agent/handlers.py:248 | the GAME_OVER acknowledgement has exactly status and the match id |
| PlayerAgentHandlers.OpenedIsActive | src/agents/player_agent/handlers.py:126-133 | an invitation always opens an ACTIVE match with the invitation's match and opponent and no choice or result, whatever came before |
| PlayerAgentHandlers.HandledFacts | src/agents/player_agent/handlers.py:77-321 | unknown types answer nothing and change nothing; the five informational handlers acknowledge and change nothing; a rejected message changes nothing; only an invitation can make the player ACTIVE; only GAME_OVER changes the tally, by one game; LEAGUE_COMPLETED shuts down |
| PlayerAgentHandlers.MessageHandler.constructor | src/agents/player_agent/handlers.py:37-53 | the handler works on the given player state |
| PlayerAgentHandlers.MessageHandler.HandleGameInvitation | src/agents/player_agent/handlers.py:104-155 | an invalid invitation raises and changes nothing; otherwise the match is started and the join acknowledgement returned |
| PlayerAgentHandlers.MessageHandler.HandleChooseParity | src/agents/player_agent/handlers.py:157-213 | an invalid call raises and changes nothing; otherwise the choice is recorded and sent back |
| PlayerAgentHandlers.MessageHandler.HandleGameOver | src/agents/player_agent/handlers.py:215-248 | an invalid message raises and changes nothing; otherwise the match ends with the player's own result and the match is acknowledged |
| PlayerAgentHandlers.MessageHandler.HandleLeagueCompleted | src/agents/player_agent/handlers.py:292-300 | the player shuts down and acknowledges; nothing else changes |
| PlayerAgentHandlers.MessageHandler.HandleMessage | src/agents/player_agent/handlers.py:77-102 | the reply and the new player state are what Handled gives for the routed handler |
| PlayerAgentState.PlayerStats.constructor | src/agents/player_agent/state.py:45-52 | all counts start at zero |
| PlayerAgentState.PlayerStats.AddResult | src/agents/player_agent/state.py:54-62 | one more game; WIN adds a win, DRAW a draw, anything else (TECHNICAL_LOSS included) a loss, and the other counts stay |
| PlayerAgentState.EndedTally | src/agents/player_agent/state.py:148-161 | ending a match counts exactly one game as a win, a draw or a loss, keeps total = wins + draws + losses, clears the match, returns to REGISTERED and keeps the credentials |
| PlayerAgentState.PlayerState.constructor | src/agents/player_agent/state.py:77-89 | INIT, no credentials, no match, zero counts |
| PlayerAgentState.PlayerState.IsRegistered | src/agents/player_agent/state.py:94-96 | registered means past INIT with a player id; suspended and shut-down players with an id still count as registered |
| PlayerAgentState.PlayerState.CanPlay | src/agents/player_agent/state.py:98-100 | a player can play exactly when it is not new, suspended or shut down |
| PlayerAgentState.PlayerState.Register | src/agents/player_agent/state.py:102-120 | the credentials are stored and the player becomes REGISTERED, so it is registered and can play |
| PlayerAgentState.PlayerState.StartMatch | src/agents/player_agent/state.py:122-140 | a new match with the league id (or "") and no choice or result, and the player becomes ACTIVE from any state; it can then play, and is registered exactly when it has a player id |
| PlayerAgentState.PlayerState.RecordChoice | src/agents/player_agent/state.py:142-146 | the current match's choice is set; without a match nothing changes |
| PlayerAgentState.PlayerState.EndMatch | src/agents/player_agent/state.py:148-161 | the state becomes what Ended gives: without a match nothing changes |
| PlayerAgentState.PlayerState.Suspend | src/agents/player_agent/state.py:163-166 | SUSPENDED from any state, and the player cannot play |
| PlayerAgentState.PlayerState.Recover | src/agents/player_agent/state.py:168-172 | only SUSPENDED returns to REGISTERED; any other state is unchanged |
| PlayerAgentState.PlayerState.Shutdown | src/agents/player_agent/state.py:174-177 | SHUTDOWN from any state, and the player cannot play |
| ProtocolVersion.VersionRuns | SHARED/league_sdk/protocol_version.py:46-50 | a text splits into three digit runs exactly as they were joined by dots |
| ProtocolVersion.ParseVersion | SHARED/league_sdk/protocol_version.py:36-57 | a parsed version keeps the text it came from as raw |
| ProtocolVersion.ParseVersionComplete | SHARED/league_sdk/protocol_version.py:36-57 | three digit runs joined by dots, with or without one trailing newline, parse to their decimal values |
| ProtocolVersion.ParseVersionSound | SHARED/league_sdk/protocol_version.py:36-57 | whatever parses is three digit runs joined by dots up to one trailing newline, and its numbers are their values |
| ProtocolVersion.ConstantsParse | SHARED/league_sdk/protocol_version.py:14-18 | the current version parses to 2.1.0 and the minimum to 2.0.0 |
| ProtocolVersion.IsCompatibleIff | SHARED/league_sdk/protocol_version.py:60-90 | a version is compatible exactly when it parses with major 2; the minimum 2.0.0 adds nothing |
| ProtocolVersion.GetVersionMismatchError | SHARED/league_sdk/protocol_version.py:93-121 | no error exactly for a compatible version; an unparsable one gets the format message, one with the wrong major the major-mismatch message |
| ProtocolVersion.NeverBelowMinimum | SHARED/league_sdk/protocol_version.py:112-121 | the "below minimum" message is never produced |
| ProtocolVersion.CompatibleConstants | SHARED/league_sdk/protocol_version.py:14-90 | both version constants are compatible |
| ProtocolVersion.ValidateProtocolHeaderIff | SHARED/league_sdk/protocol_version.py:124-141 | a header is valid exactly when the protocol is league.v2 and the version is absent, empty or parses with major 2 |
| ProtocolVersion.CreateVersionMetadata | SHARED/league_sdk/protocol_version.py:144-155 | exactly the three string fields, protocol being league.v2 |
| ProtocolVersion.AdvertisedVersionsCompatible | SHARED/league_sdk/protocol_version.py:124-155 | an agent that echoes the advertised metadata back is accepted |
| ProtocolVersion.CheckAgentCompatibility | SHARED/league_sdk/protocol_version.py:158-177 | a falsy version is assumed compatible; a truthy non-string version raises; a string version is reported compatible exactly when is_compatible accepts it |
| ProtocolVersion.IncompatibleMessage | SHARED/league_sdk/protocol_version.py:173-177 | an incompatible version's message is the mismatch error itself |
| Ranking.Insert | agents/league_manager/standings.py:68-71 | inserting one entry adds exactly that entry, keeping all the others |
| Ranking.Sort | agents/league_manager/standings.py:68-71 | the sorted standings are a permutation of the entries |
| Ranking.InsertRanked | agents/league_manager/standings.py:68-71 | inserting into a ranked list keeps it ranked by points, then wins, both descending |
| Ranking.SortRanked | agents/league_manager/standings.py:68-71 | the sorted standings are ranked by points, then wins, both descending |
| Ranking.InsertStable | agents/league_manager/standings.py:68-71 | an inserted entry goes after the entries with its own key |
| Ranking.SortStable | agents/league_manager/standings.py:68-71 | the sort is stable: entries with equal points and wins keep their registration order |
| Ranking.InOrder | agents/league_manager/standings.py:68-71 | the i-th value is the entry of the i-th key in insertion order, as `dict.values()` yields them |
| Referee.SenderId | agents/referee_template/handlers.py:46 | a text sender yields the part after its last ':' (with no ':' left in it), or the whole sender when it has none; None, booleans and numbers raise, as does a list or dict holding ":" |
| Referee.SideOf | agents/referee_template/handlers.py:48-51 | side A exactly when the id equals A's id; side B exactly when it differs from A's and equals B's |
| Referee.JoinSetsOneFlag | agents/referee_template/handlers.py:48-51 | a join sets A's flag iff the id is A's, else B's flag iff it is B's; ids and choices are untouched |
| Referee.ChoiceLastWriteWins | agents/referee_template/handlers.py:85-88 | a second choice overwrites the first in the sender's slot only; the other slot and the join flags are untouched; an unknown sender changes nothing |
| Referee.ResultJson | agents/referee_template/game_logic.py:91-99 | a technical loss holds exactly the two ids, the reason and TECHNICAL_LOSS for both sides; a settled match holds the outcome's results and winner (null for a draw) |
| Referee.DetermineWinner | agents/referee_template/parity_handler.py:76-99 | the result copies the match and round ids, equals the even/odd outcome for the two stored choices, draws a number in 1..10 and echoes both choices |
| Referee.DecidedByParityRule | agents/referee_template/parity_handler.py:76-99 | a settled match is a draw exactly when both or neither choice matches the drawn number's parity; the winner is A, B or nobody; neither side gets a technical loss |
| Referee.Lookup | agents/referee_template/handlers.py:40-43 | the lookup raises exactly for an unhashable match id and finds an entry exactly when the id is a text key of the table |
| Referee.RefereeAgent.constructor | agents/referee_template/game_logic.py:62 | the active-match table starts empty |
| Referee.NewState | agents/referee_template/game_logic.py:51-62 | the entry stored for a new match: its ids, nobody joined, and the choice phase not complete |
| Referee.RefereeAgent.ConductMatch | agents/referee_template/game_logic.py:52-85 | a failed join gives join_timeout, a failed choice phase choice_timeout, otherwise the parity rule's result; the match's entry is gone afterwards and the other entries are untouched |
| Referee.RefereeAgent.HandleGameJoinAck | agents/referee_template/handlers.py:25-59 | a declined join and an unknown match change nothing (RECEIVED, resp. the Unknown match error); otherwise only the addressed entry changes, by the sender's join flag |
| Referee.RefereeAgent.HandleParityResponse | agents/referee_template/handlers.py:61-96 | a choice other than exactly "even" or "odd" is refused before the lookup; an unknown match changes nothing; otherwise only the addressed entry's sender slot is overwritten |
| Referee.BothResponsesComplete | agents/referee_template/parity_handler.py:71-74 | once both distinct players have answered, the choice phase is complete |
| Referee.TechnicalLossForBoth | agents/referee_template/game_logic.py:91-99 | a technical loss marks both sides TECHNICAL_LOSS whichever side failed |
| Repositories.ZeroRecord | SHARED/league_sdk/repositories.py:55-63 | a first-seen player's record carries the id and zero points, wins, draws, losses and games |
| Repositories.RecordResult | SHARED/league_sdk/repositories.py:65-75 | one result adds a game; WIN adds a win and 3 points, DRAW a draw and 1 point, anything else a loss; nothing else changes |
| Repositories.SameTally | SHARED/league_sdk/repositories.py:65-75 | the repository and the standings manager count every result string identically |
| Repositories.StandingsRepository.constructor | SHARED/league_sdk/repositories.py:39-43 | an empty table, no player recorded |
| Repositories.StandingsRepository.UpdatePlayer | SHARED/league_sdk/repositories.py:50-77 | a new player is appended to the table with a zeroed record; only that player's record changes, by one result |
| Repositories.StandingsRepository.Reset | SHARED/league_sdk/repositories.py:79-82 | every record is removed |
| Repositories.StandingsRepository.Records | SHARED/league_sdk/repositories.py:47 | the records in insertion order, one per player |
| Repositories.StandingsRepository.GetStandings | SHARED/league_sdk/repositories.py:45-48 | the standings are a permutation of the records |
| Repositories.RepositoryStandingsRanked | SHARED/league_sdk/repositories.py:45-48 | the standings are ranked by points, then wins, both descending, and tied records keep insertion order |
| Repositories.RoundMatches | SHARED/league_sdk/repositories.py:107 | keeps exactly the matches of the round, each as often as it was stored |
| Repositories.PlayerMatches | SHARED/league_sdk/repositories.py:112-115 | keeps exactly the matches naming the player as player_a or player_b, each as often as it was stored |
| Repositories.RoundMatchesAppend | SHARED/league_sdk/repositories.py:107 | the round filter keeps the stored order: filtering a concatenation concatenates the filters |
| Repositories.PlayerMatchesAppend | SHARED/league_sdk/repositories.py:112-115 | the player filter keeps the stored order: filtering a concatenation concatenates the filters |
| Repositories.MatchRepository.constructor | SHARED/league_sdk/repositories.py:88-92 | no match stored |
| Repositories.MatchRepository.AddMatch | SHARED/league_sdk/repositories.py:94-101 | the match, stamped with recorded_at, is appended after all earlier ones |
| Repositories.MatchRepository.GetMatches | SHARED/league_sdk/repositories.py:103-108 | a missing or empty round id returns every match; any other returns that round's matches |
| Repositories.MatchRepository.GetPlayerHistory | SHARED/league_sdk/repositories.py:110-115 | exactly the stored matches the player takes part in, with their multiplicities |
| Repositories.StateRepository.constructor | SHARED/league_sdk/repositories.py:121-125 | an empty state |
| Repositories.StateRepository.GetValue | SHARED/league_sdk/repositories.py:127-129 | a stored key gives its value, a missing key the default |
| Repositories.StateRepository.SetValue | SHARED/league_sdk/repositories.py:131-134 | only the key changes, and reading it back gives the value whatever the default |
| Repositories.StateRepository.GetAll | SHARED/league_sdk/repositories.py:136-138 | the whole state, every key with its value |
| Resilience.Backoffs | src/utils/resilience.py:59-62 | the k-th wait is the base backoff times 2^k |
| Resilience.RetryWithBackoff | src/utils/resilience.py:26-67 | at most max_retries + 1 calls; the first success is returned; a non-retryable error propagates at once; each failed attempt with another to come waits backoff·2^k; when all fail, RetryExhausted carries max_retries + 1 and the last error |
| Resilience.SimpleObserve | src/utils/resilience.py:141-151 | OPEN turns HALF_OPEN exactly when a non-zero failure time lies strictly more than the reset timeout back; the counters never change |
| Resilience.SimpleSuccess | src/utils/resilience.py:153-156 | CLOSED with no failures, from any state |
| Resilience.SimpleFailure | src/utils/resilience.py:158-164 | one more failure, stamped now; OPEN once the count reaches the threshold, otherwise the state is kept |
| Resilience.SimpleOperationsKeepConsistent | src/utils/resilience.py:141-164 | every operation keeps the invariant that a breaker off CLOSED has at least the threshold of failures |
| Resilience.HalfOpenFailureReopens | src/utils/resilience.py:158-164 | a failure in HALF_OPEN reopens the breaker |
| Resilience.BreakersDisagreeAtTimeout | src/utils/resilience.py:146-150 | at exactly the timeout the SDK breaker admits a call while this one still refuses it |
| Resilience.BreakersDisagreeOnClosing | src/utils/resilience.py:153-156 | one success closes this breaker from HALF_OPEN while the SDK breaker, needing two, stays HALF_OPEN |
| Resilience.ZeroFailureTimeStaysOpen | src/utils/resilience.py:146-150 | a failure time of 0 is falsy, so such a breaker never leaves OPEN by waiting |
| Resilience.SimpleCircuitBreaker.constructor | src/utils/resilience.py:122-139 | CLOSED, no failures, no failure time, with the given threshold and timeout |
| Resilience.SimpleCircuitBreaker.GetState | src/utils/resilience.py:141-151 | the state after the timeout check, which is also stored; the invariant is kept |
| Resilience.SimpleCircuitBreaker.RecordSuccess | src/utils/resilience.py:153-156 | the counters become those of a success; the invariant is kept |
| Resilience.SimpleCircuitBreaker.RecordFailure | src/utils/resilience.py:158-164 | the counters become those of a failure; the invariant is kept |
| Resilience.SimpleCircuitBreaker.IsOpen | src/utils/resilience.py:166-168 | true exactly when the state after the timeout check is OPEN |
| Resilience.SimpleCircuitBreaker.CanExecute | src/utils/resilience.py:170-172 | true exactly when the state after the timeout check is not OPEN |
| RoundRobin.PairsWith | agents/league_manager/scheduler.py:39 | the pairs of one player with each later player, in list order |
| RoundRobin.CombinationsLength | agents/league_manager/scheduler.py:39 | n players give n(n-1)/2 pairs |
| RoundRobin.CombinationsMembers | agents/league_manager/scheduler.py:39 | the pairs are exactly (ids[i], ids[j]) with i < j |
| RoundRobin.CombinationsOnce | agents/league_manager/scheduler.py:39 | with distinct players each pair occurs at most once |
| RoundRobin.NeverReversed | agents/league_manager/scheduler.py:39 | with distinct players a pair never also occurs reversed |
| RoundRobin.FourPairs | agents/league_manager/scheduler.py:39 | four players give the six pairs in combinations order |
| RoundRobin.Scan | agents/league_manager/scheduler.py:50-62 | one pass splits the remaining pairs into those taken into the round and those kept |
| RoundRobin.ScanDisjoint | agents/league_manager/scheduler.py:50-61 | no player appears in two matches of one round |
| RoundRobin.ScanKeptClash | agents/league_manager/scheduler.py:50-62 | every pair left for later shares a player with the round |
| RoundRobin.ScanMultiset | agents/league_manager/scheduler.py:50-62 | a pass loses and duplicates no pair |
| RoundRobin.ScanTakesFirst | agents/league_manager/scheduler.py:50-62 | the first remaining pair always opens the round, so every round is non-empty |
| RoundRobin.PackFacts | agents/league_manager/scheduler.py:46-66 | every packed round is non-empty and disjoint, and together the rounds hold exactly the pairs |
| RoundRobin.EveryPairOnce | agents/league_manager/scheduler.py:39-66 | with distinct players every pair of players meets exactly once, never in reversed orientation |
| RoundRobin.OnlyPairsOfPlayers | agents/league_manager/scheduler.py:39-66 | a scheduled pair is (ids[i], ids[j]) with i < j |
| RoundRobin.FourPlayers | agents/league_manager/scheduler.py:39-66 | four players give three rounds: AB and CD, AC and BD, AD and BC |
| LeagueScheduler.MatchIdInjective | agents/league_manager/scheduler.py:54 | different rounds or positions never share a match id R{r}M{k} |
| LeagueScheduler.Label | agents/league_manager/scheduler.py:53-59 | one match per taken pair of the round |
| LeagueScheduler.LabelAt | agents/league_manager/scheduler.py:53-59 | the k-th pair of round r becomes match R{r}M{k+1} of ROUND_{r}, players in pair order, no referee yet |
| LeagueScheduler.LabelRounds | agents/league_manager/scheduler.py:64-66 | one labelled round per packed round |
| LeagueScheduler.RemoveFirst | agents/league_manager/scheduler.py:62 | removing a present pair shortens the list by one |
| LeagueScheduler.RemoveFirstSkips | agents/league_manager/scheduler.py:62 | list.remove drops the first equal pair and keeps everything else in order |
| LeagueScheduler.FillRound | agents/league_manager/scheduler.py:47-62 | the inner loop builds exactly the labelled taken pairs of one pass and leaves exactly the kept pairs |
| LeagueScheduler.PackRounds | agents/league_manager/scheduler.py:43-66 | the outer loop builds the labelled packing of all pairs, rounds numbered from 1 |
| LeagueScheduler.AssignRound | agents/league_manager/scheduler.py:82-84 | the k-th match of a round gets referee number (start + k) mod the number of referees; nothing else changes |
| LeagueScheduler.AssignAll | agents/league_manager/scheduler.py:80-84 | the i-th match of the flattened schedule gets referee i mod the number of referees; nothing else changes |
| LeagueScheduler.RefereedMatch | agents/league_manager/scheduler.py:80-84 | after the assignment every match keeps its id and players and has one of the given referees |
| LeagueScheduler.FirstWith | agents/league_manager/scheduler.py:113-115 | the position of the player's first match in a round, none before it, or the round length when absent |
| LeagueScheduler.NextMatchFrom | agents/league_manager/scheduler.py:110-116 | the player's earliest match from the given round on, in schedule order; None exactly when no later match involves them |
| LeagueScheduler.MatchJson | agents/league_manager/scheduler.py:53-59 | a match dictionary has exactly the five keys, with a null referee until one is assigned |
| LeagueScheduler.RoundSummaries | agents/league_manager/scheduler.py:125-132 | entry i gives round number first + i, its round id and its match count |
| LeagueScheduler.StrList | agents/league_manager/scheduler.py:124 | the player ids, in order, as JSON strings |
| LeagueScheduler.Scheduler.constructor | agents/league_manager/scheduler.py:14-18 | no schedule, round pointer 0, no players |
| LeagueScheduler.Scheduler.GenerateSchedule | agents/league_manager/scheduler.py:20-68 | the old schedule is replaced by the packing of the players' pairs (empty below two players), the pointer reset to 0, and the schedule returned |
| LeagueScheduler.Scheduler.AssignReferees | agents/league_manager/scheduler.py:70-84 | no referees change nothing; otherwise the flattened i-th match gets referee i mod k, and nothing else changes, so the rounds keep their lengths |
| LeagueScheduler.Scheduler.GetCurrentRound | agents/league_manager/scheduler.py:86-90 | the round at the pointer, or None once the pointer is past the last round |
| LeagueScheduler.Scheduler.AdvanceRound | agents/league_manager/scheduler.py:92-100 | the pointer moves on by one, and the result says whether a current round exists |
| LeagueScheduler.Scheduler.GetScheduleSummary | agents/league_manager/scheduler.py:118-133 | exactly the five keys, with the round and match totals and the 1-based current round |
| LeagueScheduler.Scheduler.GetTotalRounds | agents/league_manager/scheduler.py:102-104 | while the schedule has the generated shape, there are no rounds exactly when fewer than two players were given |
| LeagueScheduler.Scheduler.GetTotalMatches | agents/league_manager/scheduler.py:106-108 | while the schedule has the generated shape, n players give n(n-1)/2 matches |
| LeagueScheduler.GeneratedTotal | agents/league_manager/scheduler.py:106-108 | a schedule shaped like the one generated for n players holds n(n-1)/2 matches |
| LeagueScheduler.SameShapeTotal | agents/league_manager/scheduler.py:106-108 | schedules with equally long rounds hold as many matches |
| LeagueScheduler.Scheduler.GetPlayerNextMatch | agents/league_manager/scheduler.py:110-116 | the nested loops return the player's next match from the current round on |
| LeagueScheduler.FirstInRound | agents/league_manager/scheduler.py:113-115 | the inner loop finds the player's first match in the round |
| LeagueScheduler.TotalMatchesAfterGenerate | agents/league_manager/scheduler.py:106-108 | n players get n(n-1)/2 matches in total |
| LeagueScheduler.ScheduledMatch | agents/league_manager/scheduler.py:39-66 | match k of round i is R{i+1}M{k+1} of ROUND_{i+1}, between the players of the k-th pair packed into that round |
| LeagueScheduler.ScheduledRoundDisjoint | agents/league_manager/scheduler.py:48-61 | in a generated round no player appears in two matches |
| LeagueScheduler.ScheduleNonEmpty | agents/league_manager/scheduler.py:34-36 | the schedule is empty exactly when there are fewer than two players |
| LeagueScheduler.ScheduledRoundsNonEmpty | agents/league_manager/scheduler.py:64-65 | every generated round holds at least one match |
| SchemasBase.GameResultOf | SHARED/league_sdk/schemas_base.py:17-22 | exactly WIN, LOSS, DRAW and TECHNICAL_LOSS are game results, each the member with that value |
| SchemasBase.MatchRoleOf | SHARED/league_sdk/schemas_base.py:25-28 | exactly PLAYER_A and PLAYER_B are roles, each the member with that value |
| SchemasBase.AgentStateOf | SHARED/league_sdk/schemas_base.py:31-37 | exactly the five lifecycle names are agent states, each the member with that value |
| SchemasBase.ErrorCodeOf | SHARED/league_sdk/schemas_base.py:40-51 | exactly the ten listed codes are error codes, each the member with that value |
| SchemasBase.EnumValuesRoundTrip | SHARED/league_sdk/schemas_base.py:17-51 | every member is found again from its value |
| SchemasBase.RetryableErrorCodes | SHARED/league_sdk/helpers.py:82-84 | the SDK's retryable codes are exactly the enum's timeout (E001) and connection error (E009) |
| SchemasBase.ValidateUtcTimestamp | SHARED/league_sdk/schemas_base.py:54-60 | the value is returned unchanged exactly when it matches one of the two UTC patterns; otherwise the fixed message is raised |
| SchemasBase.ValidateSender | SHARED/league_sdk/schemas_base.py:77-82 | a sender is accepted, unchanged, exactly when it contains ':' |
| SchemasBase.MakeMessageEnvelope | SHARED/league_sdk/schemas_base.py:63-82 | an envelope is built exactly when the protocol is league.v2, the sender holds ':' and the timestamp is UTC; otherwise one to three field errors |
| SchemasBase.SenderRulesDiffer | SHARED/league_sdk/schemas_base.py:77-82 | the SDK and the protocol layer disagree on senders: "league_manager" passes only the latter, "manager:MANAGER" only the former |
| SchemasBase.BareManagerSender | SHARED/league_sdk/schemas_base.py:80-81 | the bare manager sender is refused by the SDK envelope yet accepted by the protocol layer |
| SchemasBase.TypedManagerSender | SHARED/league_sdk/schemas_base.py:80-81 | a typed manager sender is accepted by the SDK envelope yet refused by the protocol layer |
| SimLeague.TagRound | simulation/league.py:71-77 | each match of a round carries its round number, everything else of the scheduler's match kept |
| SimLeague.TagRounds | simulation/league.py:71-77 | round i is tagged with round number first + i |
| SimLeague.SimScheduleMatch | simulation/league.py:57-84 | match k of round i is R{i+1}M{k+1} of ROUND_{i+1} with round number i + 1, between the players of the k-th pair packed into that round |
| SimLeague.SimRoundDisjoint | simulation/league.py:66-79 | no player appears in two matches of one generated round |
| SimLeague.Conduct | simulation/referee.py:22-44 | a match gives tallies only to its two players and leaves every other player's tally as it was |
| SimLeague.ConductSteps | simulation/referee.py:22-44 | A chooses, then B, on the tallies A's choice left; each then records its result and the other's choice; the result reports that outcome |
| SimLeague.ConductResultFields | simulation/referee.py:35-46 | the result names the match and both players; the drawn number lies in 1..10 and its parity is reported; there is no winner exactly when the match is a draw |
| SimLeague.ConductCountsBoth | simulation/referee.py:32-33 | two distinct players each play one more game, with a win or a draw counted as the result reports it |
| SimLeague.ConductCountsSelf | simulation/referee.py:22-33 | a player drawn against itself plays two games in one match |
| SimLeague.ConductKeepsPoints | simulation/referee.py:32-33 | every tally keeps points = 3·wins + draws through a match |
| SimLeague.ConductMatch | simulation/referee.py:22-46 | the two choices, the default game's outcome and the two recordings, in that order, give exactly Conduct's result and tallies |
| SimLeague.PlayedRound | simulation/league.py:149-156 | one result per match played so far |
| SimLeague.PlayedLeagueCount | simulation/league.py:145-156 | every scheduled match leaves exactly one result |
| SimLeague.PlayedRoundAt | simulation/league.py:149-156 | the k-th result of a round is the k-th match, refereed by referee k mod the referee count and conducted on the tallies the first k matches left |
| SimLeague.PlayedLeagueAt | simulation/league.py:145-156 | match k of round i leaves its result after all earlier rounds' results, stamped with round i + 1 and referee k mod the referee count, the index restarting every round, and conducted on the tallies everything before it left |
| SimLeague.PlayedLeaguePrefix | simulation/league.py:145-156 | playing more rounds only appends to the results of the earlier ones |
| SimLeague.PlayNextMatch | simulation/league.py:151-156 | match k is given to referee k mod the referee count, conducted between the registered players on the tallies the first k matches left, and its stamped result appended |
| SimLeague.PlayRoundMatches | simulation/league.py:149-156 | after a round's loop the results and tallies are those of all its matches in order |
| SimLeague.PlayNextRound | simulation/league.py:145-156 | round i is played, numbered i + 1, on the tallies the earlier rounds left, and its results appended |
| SimLeague.PlayLeague | simulation/league.py:141-165 | with referees, the results and tallies are those of every round of the schedule in order |
| SimLeague.SimSchedulePlayers | simulation/league.py:57-84 | both players of every generated match are among the ids it was generated for |
| SimLeague.SimScheduleSeated | simulation/league.py:57-84 | every player of every generated round is registered when every id is |
| SimLeague.Unranked | simulation/league.py:169-181 | one row per player in registration order, with the player's own tally and played = wins + draws + losses |
| SimLeague.StandingsTable | simulation/league.py:167-187 | the ranks are 1, 2, …; the rows are ordered by points, then wins, descending; they are a permutation of the players' rows; tied rows keep registration order |
| SimLeague.LeagueSimulation.constructor | simulation/league.py:23-31 | no players, referees, schedule or results |
| SimLeague.LeagueSimulation.RegisterReferee | simulation/league.py:44-48 | the referee is added at the end unless already present, where it keeps its place; nothing else changes |
| SimLeague.LeagueSimulation.RegisterPlayer | simulation/league.py:50-55 | a fresh player with no games replaces any earlier one under that id, which keeps its place; the other players and tallies are untouched |
| SimLeague.LeagueSimulation.ExecuteMatch | simulation/league.py:89-93 | the two players are looked up by id and the match is conducted on their tallies: the result and the new tallies are Conduct's; the players, schedule and results are unchanged |
| SimLeague.LeagueSimulation.GenerateSchedule | simulation/league.py:57-84 | the rounds for the registered players are appended to the schedule; nothing else changes |
| SimLeague.LeagueSimulation.RunSequential | simulation/league.py:141-165 | with referees, exactly the stamped results of every match are appended in schedule order and the tallies become those the matches leave; with none, nothing changes and ZeroDivisionError is raised exactly when some round holds a match |
| SimLeague.LeagueSimulation.RunUnrefereed | simulation/league.py:145-153 | with no referee nothing is appended, and an error is raised exactly when some round holds a match |
| SimLeague.LeagueSimulation.GetStandings | simulation/league.py:167-187 | row i is the i-th row of the table sorted from the players' own tallies, with rank i + 1 |
| SimLeague.AssignRanks | simulation/league.py:184-185 | the i-th row gets rank i + 1, nothing else changes |
| SimLeague.MatchesBeforeMonotone | simulation/league.py:86 | counting more rounds never counts fewer matches |
| SimPlayer.Chosen | simulation/player.py:33-56 | always "even" or "odd" once the last choice is; the fixed strategies give their parity; alternating returns the last choice and flips it; adaptive follows the opponent's history; the unknown strategy uses the coin; only the last choice may change |
| SimPlayer.Recorded | simulation/player.py:58-71 | one more game, counted as a win for WIN, a draw for DRAW and a loss otherwise; points kept at 3·wins + draws; the opponent's choice appended to that opponent's history; the last choice kept |
| SimPlayer.AdaptiveChoice | simulation/player.py:49-56 | always "even" or "odd"; with fewer than two known choices it is the coin's choice |
| SimPlayer.AdaptiveMajority | simulation/player.py:52-56 | with two or more known choices the majority parity is chosen, a tie going to "even" |
| SimPlayer.AdaptiveCopiesConstantOpponent | simulation/player.py:49-56 | against an opponent who chose the same parity at least twice, that parity is chosen |
| SimPlayer.Player.constructor | simulation/player.py:19-31 | no results, last choice "even", no opponent history, the given ids, strategy and token |
| SimPlayer.Player.ChooseParity | simulation/player.py:33-47 | always "even" or "odd"; the fixed strategies give their parity; alternating returns the last choice and flips it; adaptive follows the opponent's history; the unknown strategy uses the coin; results and histories are untouched |
| SimPlayer.Player.RecordResult | simulation/player.py:58-71 | WIN adds a win, DRAW a draw, anything else a loss, with points kept at 3·wins + draws; the opponent's choice is appended to that opponent's history only |
| SimPlayer.OtherHistoriesKept | simulation/player.py:69-71 | recording leaves every other opponent's history as it was |
| SimPlayer.AlternationFlips | simulation/player.py:41-44 | the alternating choices start with "even" and flip on every call |
| Standings.Score | agents/league_manager/standings.py:29 | WIN scores 3, DRAW 1, every other result 0 |
| Standings.NewStanding | agents/league_manager/standings.py:31-37 | a new entry carries the id, the display name or the id when the name is falsy, and zero counters |
| Standings.Tally | agents/league_manager/standings.py:50-59 | one more game and the result's score; exactly one of wins, draws and losses goes up, anything but WIN and DRAW counting as a loss |
| Standings.TallyKeepsConsistent | agents/league_manager/standings.py:50-59 | tallying any result keeps played = wins + draws + losses and points = 3·wins + draws |
| Standings.Zeroed | agents/league_manager/standings.py:102-107 | the same entry with every counter at zero |
| Standings.ToRow | agents/league_manager/standings.py:74-83 | a row keeps the entry's id, points and wins and carries the given rank |
| Standings.Rows | agents/league_manager/standings.py:73-85 | row i is the i-th sorted entry with rank first + i |
| Standings.Ids | agents/league_manager/standings.py:76 | the ids of the entries, in order |
| Standings.RegisterSpec | agents/league_manager/standings.py:31-37 | a known id leaves the table as it is; a new one is appended with a fresh entry; no other entry changes |
| Standings.UpdateSpec | agents/league_manager/standings.py:39-59 | an unknown id is appended with an empty name first; only that id's entry changes, by one tally |
| Standings.UpdateIsRegisterThenTally | agents/league_manager/standings.py:47-59 | update_result is register_player with an empty name followed by one tally |
| Standings.UpdateSpecFacts | agents/league_manager/standings.py:39-59 | one update keeps the table invariant and adds exactly one game to the total played |
| Standings.UpdateKeepsTable | agents/league_manager/standings.py:39-59 | one update keeps every id listed once and every entry consistent |
| Standings.UpdateCountsOneGame | agents/league_manager/standings.py:50-51 | one update adds exactly one game to the total played |
| Standings.UpdateKeyed | agents/league_manager/standings.py:47-59 | one update keeps every id listed once under its own entry, consistent or not, and adds one game played |
| Standings.BumpSpec | agents/league_manager/standings.py:47-52 | an update whose result is no dictionary key registers an unknown id and adds one game played to that entry only; every other counter stays |
| Standings.BumpBreaksConsistency | agents/league_manager/standings.py:47-59 | that interrupted update keeps the table keyed and adds one game played, but the entry then has one game more than its wins, draws and losses |
| Standings.RowJson | agents/league_manager/standings.py:74-83 | a row dictionary has exactly the eight keys |
| Standings.RowsJson | agents/league_manager/standings.py:73-85 | one dictionary per row, in order |
| Standings.StatsJson | agents/league_manager/standings.py:115-121 | the statistics dictionary has exactly the five keys |
| Standings.StandingsManager.constructor | agents/league_manager/standings.py:26-29 | an empty table |
| Standings.StandingsManager.RegisterPlayer | agents/league_manager/standings.py:31-37 | the table becomes the registration of the id, keeping the invariant |
| Standings.StandingsManager.UpdateResult | agents/league_manager/standings.py:39-59 | the table becomes the update of the id, adding one game to the total played, and stays consistent if it was |
| Standings.StandingsManager.UpdateResultUnhashable | agents/league_manager/standings.py:47-52 | the table becomes what BumpSpec says: registered, one more game played, then TypeError |
| Standings.StandingsManager.Entries | agents/league_manager/standings.py:69 | the entries in dictionary order |
| Standings.StandingsManager.SortedEntries | agents/league_manager/standings.py:68-71 | the entries reordered by (points, wins) descending: a permutation of the dictionary's entries, with tied entries in dictionary order |
| Standings.StandingsManager.GetStandings | agents/league_manager/standings.py:61-85 | one row per player, the i-th row being the i-th sorted entry with rank i + 1; no row is ahead on (points, wins) of an earlier row |
| Standings.StandingsManager.GetLeader | agents/league_manager/standings.py:95-98 | None exactly for an empty table, otherwise the first row, ranked 1 |
| Standings.StandingsManager.GetPlayerStanding | agents/league_manager/standings.py:87-93 | the first row of the table carrying the id |
| Standings.StandingsManager.Reset | agents/league_manager/standings.py:100-107 | every entry is kept, in order, with its counters zeroed, so the table is consistent again |
| Standings.StandingsManager.GetStats | agents/league_manager/standings.py:109-121 | the player count, half the games played, the wins, half the draws, and the leader |
| Standings.FirstRow | agents/league_manager/standings.py:90-93 | a row with the id when one exists, otherwise None and no row carries the id |
| Standings.FindRow | agents/league_manager/standings.py:90-93 | the search loop finds the first row carrying the id |
| Standings.ZeroAll | agents/league_manager/standings.py:102-107 | the loop zeroes every entry and keeps every key |
| Standings.StandingsTable | agents/league_manager/standings.py:61-85 | the rows are ranked 1, 2, …, ordered by points, then wins, descending, a permutation of the entries, and tied entries keep registration order |
| Standings.TableOf | agents/league_manager/standings.py:68-85 | the rows of sorted entries are in non-increasing key order and the sort keeps tied entries in order |
| Strategies.DeterministicChoose | agents/player_template/strategies/deterministic.py:10-41 | the even strategy always says "even", the odd one always "odd" |
| Strategies.Flip | agents/player_template/strategies/alternating.py:40 | "even" becomes "odd" and "odd" becomes "even" |
| Strategies.AlternatesFromEven | agents/player_template/strategies/alternating.py:13-40 | started on "even", the k-th choice is "even" exactly for even k |
| Strategies.AlternatesAfterFirstUpdate | agents/player_template/strategies/alternating.py:37-40 | from the first update on, the choice is a parity and flips on every update, whatever the start |
| Strategies.AlternatingStrategy.constructor | agents/player_template/strategies/alternating.py:13-21 | the current choice is the start value and no game counted |
| Strategies.AlternatingStrategy.Choose | agents/player_template/strategies/alternating.py:27-35 | the choice is the start value flipped once per counted game, and choosing changes nothing |
| Strategies.AlternatingStrategy.Update | agents/player_template/strategies/alternating.py:37-40 | one more game and the current choice flipped |
| Strategies.LastWindow | agents/player_template/strategies/adaptive.py:67-69 | the last ten entries, or all of them when there are fewer |
| Strategies.AdaptiveChoose | agents/player_template/strategies/adaptive.py:28-58 | always "even" or "odd"; fewer than three known choices give the coin's choice |
| Strategies.AdaptiveMirrorsMajority | agents/player_template/strategies/adaptive.py:48-58 | with three or more known choices the majority parity is mirrored, and the coin decides exactly on a tie |
| Strategies.AdaptiveCopiesConstantOpponent | agents/player_template/strategies/adaptive.py:42-58 | against an opponent who chose one parity at least three times, that parity is chosen |
| Strategies.AdaptiveStrategy.constructor | agents/player_template/strategies/adaptive.py:19-22 | no opponent history |
| Strategies.AdaptiveStrategy.Choose | agents/player_template/strategies/adaptive.py:28-58 | the adaptive choice over that opponent's stored history |
| Strategies.AdaptiveStrategy.Update | agents/player_template/strategies/adaptive.py:60-69 | a missing or falsy opponent id or choice changes nothing; an unhashable id raises; otherwise that opponent's history gains the choice, cut to the last ten |
| Strategies.OtherRecordsKept | agents/player_template/strategies/adaptive.py:66-69 | an update leaves every other opponent's history as it was |
| Strategies.WindowKeepsNewest | agents/player_template/strategies/adaptive.py:66-69 | the newest choice is always kept; below ten it is appended, at ten the oldest is dropped |
| Strategies.KindFor | agents/player_template/strategies/__init__.py:25-33 | a registered name gives its strategy, any other the random one |
| Strategies.KindName | agents/player_template/strategies/llm_strategy.py:29-32 | a strategy's name is its class name, or llm- and the model for the LLM strategy, and is never a name get_strategy looks up |
| Strategies.KindNamesDistinct | agents/player_template/strategies/deterministic.py:13-32 | different strategies report different names |
| Strategies.NameGivesRandom | agents/player_template/strategies/__init__.py:25-33 | a strategy's own name handed to get_strategy gives the random strategy |
| Strategies.KindForNames | agents/player_template/strategies/__init__.py:25-33 | the six names map to their six strategies and every other name to random |
| Strategies.GetStrategy | agents/player_template/strategies/__init__.py:23-34 | a new instance of exactly the strategy the name maps to; an alternating one starts on "even" with no games, an adaptive one with no history |
| TemplateState.PlayerState.constructor | agents/player_template/state.py:14-28 | INIT, no ids, token or match, zero results and an empty history |
| TemplateState.PlayerState.SetRegistered | agents/player_template/state.py:70-75 | REGISTERED with the assigned id and token; the match, the results and the history are untouched |
| TemplateState.PlayerState.SetActive | agents/player_template/state.py:77-82 | ACTIVE with the match and opponent; the ids, the results and the history are untouched |
| TemplateState.PlayerState.RecordResult | agents/player_template/state.py:84-99 | WIN adds a win, DRAW a draw, anything else a loss, keeping points = 3·wins + draws; the match data is appended to the history; REGISTERED with no current match or opponent |
| TemplateState.PlayerState.GetStats | agents/player_template/state.py:101-112 | the assigned id when set and non-empty, else the player id; the total is wins + draws + losses; the counters are the state's |
| TemplateState.PlayerState.IsRegistered | agents/player_template/state.py:114-116 | registered means REGISTERED or ACTIVE, whatever the ids; a new, suspended or shut-down player is not registered |
| TemplateState.StatsPoints | agents/player_template/state.py:86-93 | points never exceed 3 per game, reach it exactly when every game was won, and are 0 exactly when no game was won or drawn |

## Left out

- Persistence: the `_load`/`_save` methods, the JSON state files, the repositories' file
  I/O and the 50-entry match-history cap. Only the in-memory state is modelled.
- HTTP: the FastAPI routes, `httpx`, and `MCPClient.close`/`_get_client`. Each HTTP attempt
  becomes an outcome parameter: a reply, a non-2xx status or a transport error.
- Concurrency (asyncio): `gather`, the sleeps, and the task that `check_and_start_league` starts
  after a registration. The parallel simulation run (`simulation/league.py:95-139`) is also
  left out. Handlers are modelled as running one at a time; only the sequential run is modelled.
- Logging and console output. This includes `broadcast_round_announcement`,
  `broadcast_standings` and `complete_league`, which only log.
- The random and LLM strategies, and `src/strategy/base.py`. A random pick is a choice
  parameter or a nondeterministic choice between "even" and "odd".
- Floating point: win rates, benchmarks and performance statistics. The retry backoff is an
  integer number of seconds.
- The simulation's randomness. Each match's `luck` gives the two coins a random strategy
  would toss and the offset of the drawn number.
- Player object identity in the simulation. `LeagueSimulation` keeps each player as a profile
  plus a tally, in maps keyed by id. `SimPlayer.Player`'s `ChooseParity` and `RecordResult`
  are proved to follow `Chosen` and `Recorded`, which the simulation applies to the tallies.
- The order of the field updates in the sequential run. The run gathers results and tallies
  in local values and assigns the fields once, at the end. Nothing reads them between matches,
  and nothing raises mid-run when there are referees.
- LeagueSimulation.RunSequential: with no referee, `ZeroDivisionError` is decided from the
  whole schedule before any play; in Python it comes from the first round holding a match,
  and no match has been played by then either.
- Validation by pydantic models. Inputs arrive already typed, except where the code inspects a
  raw dictionary.
- `html.escape` is a string parameter of the sanitizer, and `datetime.fromisoformat` is a
  boolean parameter.
- Status reports: `CircuitBreaker.get_status`, `CircuitBreakerRegistry.get_all_status` and
  `MCPClient.get_circuit_status`. They only copy fields into a dictionary.
- `sanitize_metadata`. It is recursive escaping built on `html.escape`, which is itself a
  parameter here.
- Configuration loading and the command-line entry points.
- Unicode digits: `\d` matches them in Python but not in this model.
- Aliasing of dictionaries the handlers return. Every result is a fresh value. In particular
  `MatchRepository.add_match` (`SHARED/league_sdk/repositories.py:99-100`) stamps
  `recorded_at` into the caller's dictionary and then stores that same object. The model
  stores a stamped copy, and the caller's value does not change.
- The referee's deadline strings and its outbound CHOOSE_PARITY and invitation requests. The
  waits for answers are boolean oracles.
- The referee's `handle_match_assignment` and `_report_result`. The first repackages its
  parameters for `conduct_match`, which is modelled. The second sends the result over HTTP.
- LeagueManagerAgent.ReportSpec: a match report whose player id is not a string stops before
  that half. In Python, `None` or a number would be registered as a new player key.
