# Pong backend core, modelled in Dafny

This project models the rule-bearing core of a Django backend for a Pong game. It covers
six parts:

- **Match rules and tournament bracket** (`pong/game/ponggame.py`, module `PongGame`).
  - The key table and key-state update.
  - Paddle movement clamped to ±7.
  - Goals and the end-of-match score of 3.
  - The two end-of-match behaviours. A normal match ends at once. A tournament match
    records a result and a winner, advances `current_match`, and fills the final's slot
    with the two semifinal winners.
- **The default session record** (`pong/game/utils.py`, module `SessionData`). The record
  has the bracket keys exactly when the mode is spelled `"tournament"`.
- **The websocket consumer** (`pong/game/consumers.py`, module `Consumer`).
  - Mode selection on connect.
  - The `start`/`pause`/`resume`/key-frame commands.
  - The one-slot key-input buffer.
  - One step of the game loop behind the pause gate.
  - Filling the cached session with defaults.
  - Saving on disconnect.
- **The OTP lock-out** (`pong/authentication/auth.py`, module `Auth`).
  - Counting attempts and locking at 5.
  - Unlocking 9 seconds after the last attempt.
  - The attempts left in a failure response.
  - The reset after a success.
  - The three-way redirect after login.
- **The authentication guard** (`pong/authentication/decorators.py`, module `Decorators`).
  The guard is an ordered chain:
  1. missing cookie;
  2. strip the `Bearer ` prefix;
  3. decode failure;
  4. missing user id;
  5. cache miss, then refresh;
  6. the OTP gate (login_required only).
- **Game history** (`pong/game/game.py`, module `GameHistory`). This covers
  `validate_game` and the page arithmetic of the history listing.

`common.dfy` (module `Common`) holds the Python vocabulary the rest shares:
- `Option`, and `Attempt` (a value or a raised exception);
- the exceptions;
- indexing with negative indices;
- floor division `//`;
- JSON values.

## How the code is modelled

- **The session dict.** It is a datatype with one `Option` field per key; `None` means
  the key is missing. Reading a missing key yields `KeyError`. An index out of range, or
  a slot that does not unpack into two values, yields `IndexError`/`ValueError`, as
  Python would raise.
- **The game.** One class `PongGame.Game` stands for both subclasses, tagged with its
  variant. Fields the source updates in place are fields here:
  - the ball;
  - the paddles;
  - the key state, an 8-entry `array<bool>`;
  - the counters;
  - the match state;
  - the session.
  Every effect on the outside world is appended, in order, to the `effects` log:
  - messages sent to the client;
  - cache writes and deletes;
  - database creates.
- **Game methods and their specifications.** Each method is specified by a pure function
  of the old state:
  - `ApplyKeys`, `MovedPanel1`/`MovedPanel2`;
  - `RecordMatch`, `EndMatch`;
  - `AfterGoal`.
  The lemmas are stated and proved about those functions.
- **Ball physics is not modelled.** `Game.Update` is told what the tick's physics
  produced: which side, if any, scored, and the ball (position, direction and spin) the
  sub-steps leave behind.
- **The consumer.** It is a class whose fields are:
  - the pause flag;
  - the pending key input;
  - the current task;
  - the set of running loop tasks.
  Tasks are numbered, not scheduled. A loop step that raises ends its task, since the loop
  only catches its cancellation. The decoded JSON of each frame is handed in, and so is the
  cached session on connect. The consumer's own cache write on disconnect goes to the
  game's `effects` log, so every cache write of a connection is in one ordered log.
- **The OTP view.** It is specified by the pure function `Auth.Post`. `Post` takes:
  - the user's stored row;
  - the current instant, in integer microseconds;
  - pyotp's verdict on the code.
  It returns the response, the row left in the table, and whether the token was recorded
  as passed. The class `Auth.OtpStore` holds the table and the cache flags. It performs
  the same steps on a local copy of the row, as the view does with its dict, and is
  proved equal to `Post`.
- **The guard.** It is a pure function. The JWT decoder, the user-data cache and the
  token refresh are function parameters.
- **The history listing.** The user's games are a sequence, already in the order the
  view sorts them.

Behaviour of the code that the model keeps, and that a reader might not expect:
- **Tournament cache.** It is never deleted at the end of a tournament. The consumer
  also saves the session on every disconnect, whether or not the match has ended.
- **Game counters.** The game's own counters (`player1_score`/`player2_score`) are not
  reset when a tournament match is recorded; only the session's scores are. A second
  match played on the same connection therefore ends on the first goal scored by a side
  whose counter already stands at 2 or more, for instance the previous winner's
  (`PongGame.CarriedCountersDecideNextMatch`).
  `player_win` does not look at the match state either.
- **Resumed rounds.** The consumer's context stores the round under `game_round` but
  reads it back from `round`. A resumed session therefore always starts from round 1
  (`Consumer.ResumeResetsRound`).
- **Repeated `start`.** `start` sent twice starts a second loop. Only the newer loop is
  cancelled on disconnect (`Consumer.GameConsumer.Receive`, `Consumer.GameConsumer.Disconnect`).

## Model

| member | source | states |
|---|---|---|
| `Common.FloorDiv` | pong/game/game.py:54 | Python's `//` rounds toward minus infinity for either sign of the divisor: q·b ≤ a < q·b + b for b > 0, and the mirror image for b < 0 |
| `SessionData.DefaultSessionData` | pong/game/utils.py:1-20 | the given user id and mode, both scores 0; for any mode but the exact string "tournament", two names and no bracket keys; for "tournament", four names ending in two "player3", current match 0, empty history and results, matches [[0,1],[2,3],[None,None]] |
| `SessionData.CapitalisedModeIsNotTournament` | pong/game/utils.py:9-19 | the mode comparison is case-sensitive: "Tournament" gives a two-player session without a bracket |
| `SessionData.DefaultTournamentIsBracket` | pong/game/utils.py:9-17 | the default tournament session satisfies the bracket invariant `BracketInv` |
| `PongGame.KeyAt` | pong/game/ponggame.py:9-18 | each of the 8 key-state indices is the KEY_MAPPING image of a key name |
| `PongGame.KeyMappingIsBijective` | pong/game/ponggame.py:9-18 | KEY_MAPPING is injective onto 0..7 with exactly 8 keys; ArrowLeft is 5 and ArrowDown is 6 |
| `PongGame.ApplyKeys` | pong/game/ponggame.py:69-72 | every mapped key of a frame sets its own entry, every entry whose key is absent keeps its value |
| `PongGame.ApplyKeysIgnoresUnmapped` | pong/game/ponggame.py:70-71 | names outside KEY_MAPPING have no effect |
| `PongGame.ClampPanelPos` | pong/game/ponggame.py:93-99 | the result lies in [-7, 7], is the identity on [-7, 7], and saturates at ±7 |
| `PongGame.AxisStep` | pong/game/ponggame.py:76-91 | one axis moves by at most 0.2 and stays in [-7, 7]; the first-checked key wins, no key leaves it unchanged |
| `PongGame.MovedPanel1` | pong/game/ponggame.py:76-83 | paddle 1 stays in range, moves at most 0.2 per axis and keeps z |
| `PongGame.MovedPanel2` | pong/game/ponggame.py:84-91 | paddle 2 stays in range, moves at most 0.2 per axis and keeps z |
| `PongGame.FirstKeyWins` | pong/game/ponggame.py:76-91 | with both keys of an axis held, W beats S, A beats D, ArrowUp beats ArrowDown, ArrowLeft beats ArrowRight |
| `PongGame.IsBallInPanel` | pong/game/ponggame.py:169-174 | the ball is at the paddle iff both x and y differ by at most 4 |
| `PongGame.BallInPanelSymmetric` | pong/game/ponggame.py:169-174 | the paddle test is symmetric and ignores z |
| `PongGame.RecordMatch` | pong/game/ponggame.py:258-280 | on success the whole new session: exactly one result (the two players' names and scores) and one winner appended, current match +1, both session scores 0, winner player 1 only on a strictly higher score, the final's slot filled from the history when the count becomes 2, every other key as before; on every path only those six keys change, and an exception raised before the result is appended leaves the session as it was |
| `PongGame.WireFinal` | pong/game/ponggame.py:278-280 | the final's two entries take win_history[0] and win_history[1], raising IndexError when either is missing; nothing else changes |
| `PongGame.RecordMatchKeepsBracket` | pong/game/ponggame.py:258-280 | from a well-formed bracket with a match left, recording never raises, keeps `BracketInv`, and the winner is one of that match's two players |
| `PongGame.FinishedBracketRaises` | pong/game/ponggame.py:259 | after the third match, a further end of match raises IndexError and changes nothing |
| `PongGame.TieGoesToPlayer2` | pong/game/ponggame.py:272 | a tied match is won by its second player |
| `PongGame.BracketRuns` | pong/game/ponggame.py:258-281 | any sequence of up to the remaining matches records without error and keeps the bracket invariant, advancing the count by its length |
| `PongGame.SemifinalsScenario` | pong/game/ponggame.py:272-280 | from the default bracket, semifinal wins by players 0 and 3 give history [0, 3], final slot [0, 3] and current match 2 |
| `PongGame.NormalGameRecord` | pong/game/ponggame.py:308-316 | the 1-on-1 row is built iff user id, two names and both scores are present, and then holds exactly those |
| `PongGame.TournamentGameRecord` | pong/game/ponggame.py:288-296 | the row of one recorded match carries the tournament link, mode "Tournament", the user id and the match's two names and scores |
| `PongGame.TournamentGames` | pong/game/ponggame.py:286-296 | one Tournament-mode game row per recorded match, in order |
| `PongGame.EndMatch` | pong/game/ponggame.py:250-306 | normal: ended first, then the game row, the normal cache key deleted, the end event; tournament: the match recorded and written back under the tournament key for 500 s, ended and persisted only once 3 matches are recorded, then the end event |
| `PongGame.TournamentEndsAfterThirdMatch` | pong/game/ponggame.py:253-255 | from a well-formed bracket, a tournament match end succeeds and ends the session exactly on the third match |
| `PongGame.NormalEndIsImmediate` | pong/game/ponggame.py:303 | a normal match end always leaves the state ended, even when saving then raises |
| `PongGame.AddPoint` | pong/game/ponggame.py:226-233 | exactly one point for the scoring side in the session, the other score untouched |
| `PongGame.AfterGoal` | pong/game/ponggame.py:224-246 | the scoring side's counter +1 and the other unchanged; below GAME_END_SCORE just the score event; at it, the end-of-match hook and then the score event unless the hook raised |
| `PongGame.NormalGoalEndsMatchIffReached` | pong/game/ponggame.py:229-235 | in a normal match a goal ends the match exactly when the scorer reaches 3 |
| `PongGame.TournamentGoalRecordsMatchIffReached` | pong/game/ponggame.py:229-256 | in a tournament the game-end event is sent exactly on the goal that reaches 3, which records the match; the session ends only on the third |
| `PongGame.CarriedCountersDecideNextMatch` | pong/game/ponggame.py:224-235 | with the game counters left at 3-0 from the previous match, the other side's goal keeps the match playing without a game-end event, while the previous winner's goal reaches the end score at once |
| `PongGame.Game.constructor` | pong/game/ponggame.py:33-60 | ball at the origin heading (0,0,1) without spin, paddles at z = ±50, all keys released, playing, counters from the session scores |
| `PongGame.Game.InitGame` | pong/game/ponggame.py:62-67 | ball and paddles back to their starting positions |
| `PongGame.Game.ProcessKeyInput` | pong/game/ponggame.py:69-72 | the key state becomes `ApplyKeys` of the old one |
| `PongGame.Game.MovePanels` | pong/game/ponggame.py:74-91 | the paddles become `MovedPanel1`/`MovedPanel2` of the old ones under the key state |
| `PongGame.Game.ResetBall` | pong/game/ponggame.py:219-222 | position (0,0,0), direction (0,0,1), `angular_vec` zero; `ball_rot` is not touched |
| `PongGame.Game.UpdateMatchResult` | pong/game/ponggame.py:258-281 | the session becomes `RecordMatch` of the old one and, when that succeeds, is cached under the tournament key for 500 s |
| `PongGame.Game.SaveTournamentResults` | pong/game/ponggame.py:283-298 | a tournament row, one game row per recorded match, then the tournament saved; KeyError on a missing key |
| `PongGame.Game.SaveGameResult` | pong/game/ponggame.py:308-316 | the row of `NormalGameRecord`, or its exception |
| `PongGame.Game.NormalSetGameEnded` | pong/game/ponggame.py:302-306 | state, effects and exception as `EndMatch` says for a normal match |
| `PongGame.Game.TournamentSetGameEnded` | pong/game/ponggame.py:250-256 | state, session, effects and exception as `EndMatch` says for a tournament |
| `PongGame.Game.SetGameEnded` | pong/game/ponggame.py:26-31 | dispatches on the variant, as `EndMatch` |
| `PongGame.Game.PlayerWin` | pong/game/ponggame.py:224-246 | the ball reset, then counters, state, session, effects and exception as `AfterGoal` says |
| `PongGame.Game.Update` | pong/game/ponggame.py:101-121 | the ball ends as the tick's physics leaves it; a goal is scored as `AfterGoal` says, and an exception from it stops the tick with the ball just reset; otherwise the state event carries that ball's position and spin and the paddles; a tick without a goal changes nothing else and only sends the state |
| `Consumer.GetSessionData` | pong/game/consumers.py:72-83 | the context holds exactly the five copied keys with their defaults (four names, empty history, round from "round" or 1, scores 0), and no user id, mode or bracket |
| `Consumer.GetSessionDataCorrected` | pong/game/consumers.py:72-83 | the same five keys, plus the connection's user id and mode and, for a tournament, the bracket keys from the cache or their defaults |
| `Consumer.ResumeResetsRound` | pong/game/consumers.py:79 | a context read back from a saved context keeps names, history and scores but is at round 1 |
| `Consumer.AsWrittenMatchEndRaises` | pong/game/consumers.py:72-83 | with the context as written, every normal match end raises KeyError("user_id") and every tournament match end KeyError("matches") |
| `Consumer.CorrectedMatchEndSucceeds` | pong/game/consumers.py:72-83 | with the corrected context, a first normal match is saved and a first tournament starts from a well-formed bracket whose match end succeeds |
| `Consumer.CorrectedResumeKeepsBracket` | pong/game/consumers.py:34-37 | a tournament saved on disconnect resumes with its bracket, history, results and names intact |
| `Consumer.GetPlayersName` | pong/game/consumers.py:86-95 | round 1 gives names 0 and 1, round 2 names 2 and 3, round 3 the win history, any other round ("player1", "player2"); missing keys and short lists raise |
| `Consumer.FreshContextNamesFirstPair` | pong/game/consumers.py:75-79 | a context built from a cache miss names "player1" and "player2" |
| `Consumer.GameConsumer.constructor` | pong/game/consumers.py:12-25 | mode "tournament" iff the route says "tournament", else "normal"; unpaused, no key input, no task; the game of that mode over `GetSessionDataCorrected` of the cached session (the source uses the as-written `get_session_data`, see Findings) |
| `Consumer.GameConsumer.Receive` | pong/game/consumers.py:39-50 | "start" starts a new task and makes it the current one; "pause"/"resume" set the gate; any other frame replaces the key input whole, or raises when it is not JSON and changes nothing |
| `Consumer.GameConsumer.StartGame` | pong/game/consumers.py:69-70 | a fresh task, added to the running ones and made current |
| `Consumer.GameConsumer.LoopStep` | pong/game/consumers.py:55-67 | paused: nothing changes; else a non-empty key frame is applied and cleared (an empty one is kept), non-object JSON raises AttributeError, then the paddles move once and the game updates once, as `AdvanceGame` says; an exception ends the task |
| `Consumer.GameConsumer.AdvanceGame` | pong/game/consumers.py:63-64 | the paddles become `MovedPanel1`/`MovedPanel2` of the old ones and the ball ends as the tick's physics leaves it; without a goal the counters, session and state are kept and only the state is sent; with a goal the rest is as `AfterGoal` says, and an exception leaves the ball just reset |
| `Consumer.GameConsumer.EndTask` | pong/game/consumers.py:55-67 | the task leaves the running ones and its failure is logged |
| `Consumer.GameConsumer.Disconnect` | pong/game/consumers.py:27-37 | the current task, if any, cancelled; then the session cached under the connection's key for 500 s, unconditionally |
| `Auth.PasswordFailResponse` | pong/authentication/auth.py:341-346 | status 400 with remain_attempts + attempts = MAX_ATTEMPTS |
| `Auth.LockExpired` | pong/authentication/auth.py:350 | a lock without a recorded last attempt never runs out; otherwise it runs out once strictly more than 9 s (9 000 000 µs) have passed |
| `Auth.IsAccountLocked` | pong/authentication/auth.py:348-355 | locked iff flagged locked and not more than 9 s have passed since a recorded last attempt; an unlocked row is untouched; an expired lock is lifted with the count cleared |
| `Auth.Written` | pong/authentication/auth.py:370-381 | the stored row takes the dict's attempts, last attempt, lock and verified flag; its secret is kept |
| `Auth.SuccessReset` | pong/authentication/auth.py:364-366 | after a success the dict has 0 attempts, is unlocked and verified, with secret and last attempt kept |
| `Auth.PostWith` | pong/authentication/auth.py:288-322 | a missing user raises; no id or no row gives 500; a locked account gives 403 uncounted; otherwise one more attempt at now: reaching 5 locks and gives 403 whatever the code, a right code gives 200, a wrong one 400 and is stored |
| `Auth.PostAsWritten` | pong/authentication/auth.py:362-368 | a successful post sets the passed flag and leaves the stored row as it was |
| `Auth.Post` | pong/authentication/auth.py:288-322 | a successful post stores the counted attempt's dict with the success reset: 0 attempts, unlocked, verified, last attempt now, secret kept |
| `Auth.SuccessLostAsWritten` | pong/authentication/auth.py:362-368 | as written, a right code after three wrong ones leaves the row at three attempts and unverified, so the next wrong code leaves only 1 attempt |
| `Auth.SuccessResetsRow` | pong/authentication/auth.py:363-368 | with the reset stored, the wrong code after a success leaves 4 attempts again |
| `Auth.NewRowIsValid` | pong/authentication/auth.py:237-247 | a newly created row satisfies `OtpInv` |
| `Auth.PostKeepsInv` | pong/authentication/auth.py:306-322 | every post, in either version, keeps the count in 0..5, locked iff 5, and a lock that always has a start time |
| `Auth.LockLastsThenExpires` | pong/authentication/auth.py:348-355 | within 9 s of the last attempt a locked account answers 403 and nothing changes; later, the post counts as the first of a fresh series |
| `Auth.WrongCodeCounts` | pong/authentication/auth.py:310-322 | a wrong code adds exactly one attempt at now and answers 400 with 5 − attempts left, or 403 and a lock on the fifth |
| `Auth.FiveWrongCodesLock` | pong/authentication/test_api.py:341-375 | five wrong codes on a new row answer 4, 3, 2, 1 attempts left and then 403; even the right code is refused on the fifth attempt |
| `Auth.GetRedirectUrl` | pong/authentication/auth.py:139-146 | "/main" when the token passed, else "/QRcode" for an unverified user, else "/OTP" |
| `Auth.RedirectsAreDistinct` | pong/authentication/auth.py:139-146 | the three targets are distinct, so the redirect tells the three cases apart |
| `Auth.OtpStore.StoredRow` | pong/authentication/auth.py:324-339 | a row is found exactly for a truthy user id that has one in the table, and it is that row |
| `Auth.OtpStore.UpdateOtpData` | pong/authentication/auth.py:370-381 | the user's row, if any, takes the four mutable fields of the dict |
| `Auth.OtpStore.UpdateOtpSuccess` | pong/authentication/auth.py:362-368 | the token is recorded as passed and the row becomes the reset, verified dict |
| `Auth.OtpStore.PostOtp` | pong/authentication/auth.py:288-322 | answer, table and passed flags exactly as `Post` says for the stored row |
| `Decorators.StripBearer` | pong/authentication/decorators.py:24-25 | a leading "Bearer " is removed; any other token is passed on unchanged |
| `Decorators.StripBearerOnce` | pong/authentication/decorators.py:24-25 | the prefix is removed once only |
| `Decorators.ValidateJwt` | pong/authentication/decorators.py:17-32 | missing or empty cookie: 401 "No jwt in request"; undecodable after stripping: 401 "Decoding jwt failed"; else the decoded payload |
| `Decorators.Guard` | pong/authentication/decorators.py:37-69 | the gates in order: jwt errors, the (None, 401) pair without a user id, on a cache miss 401 "Need login" or the refreshed-cookie redirect, the OTP 403 with show_otp_qr = the user's is_verified, else the handler with the payload |
| `Decorators.LoginRequired` | pong/authentication/decorators.py:116 | the handler is only reached with a truthy otp_verified |
| `Decorators.TokenRequired` | pong/authentication/decorators.py:117 | never answers with the OTP 403 |
| `Decorators.HandlerCalledIff` | pong/authentication/decorators.py:44-69 | the handler runs iff the cookie is given and decodes to a payload with a user id that is cached (and, with the OTP check, verified); it receives that payload |
| `Decorators.GuardsDifferOnlyInOtpGate` | pong/authentication/decorators.py:60-69 | wherever the two guards disagree, token_required calls the handler and login_required answers 403 |
| `Decorators.EarlierGatesWin` | pong/authentication/decorators.py:44-58 | without a cookie nothing else is consulted; an undecodable cookie is refused whatever the cache says |
| `GameHistory.ValidateGame` | pong/game/game.py:13-21 | an error key for exactly each missing required field, plus "mode" whenever the mode differs, with its own message overriding; empty iff all five are present and the mode matches |
| `GameHistory.Window` | pong/game/game.py:36-38 | a negative bound raises ValueError; otherwise the games from start on, in order, at most end − start of them, all that exist below end |
| `GameHistory.GamePage` | pong/game/game.py:34-56 | start = (page−1)·size, a page of that window, total pages by floor division, has_next iff page < total pages, has_previous iff page > 1; negative bounds raise ValueError and size 0 ZeroDivisionError |
| `GameHistory.ValidPages` | pong/game/game.py:34-37 | with a positive size, exactly the pages numbered from 1 are answered |
| `GameHistory.TotalPagesIsCeiling` | pong/game/game.py:54 | total pages is the ceiling of games over size |
| `GameHistory.PageHoldsItsSlice` | pong/game/game.py:34-38 | page p holds the games with indices in [(p−1)·size, p·size), so never more than size |
| `GameHistory.PageOfIndex` | pong/game/game.py:34-37 | index i lies in the range of page i / size + 1 and of no other page |
| `GameHistory.GameAtOffset` | pong/game/game.py:34-38 | page q + 1 holds, at offset off < size, the game with index q·size + off |
| `GameHistory.EveryGameOnOnePage` | pong/game/game.py:34-38 | `GamePage` of page i / size + 1 serves game i at offset i % size, and no other page's range holds index i |
| `GameHistory.BeforeLastPage` | pong/game/game.py:54-55 | a page is before the last exactly when more games follow it |
| `GameHistory.HasNextIffMoreGames` | pong/game/game.py:54-56 | has_next iff the next page is non-empty |

## Left out

- **Ball physics** (pong/game/ponggame.py:101-217) is left out. It is floating-point
  vector maths with square roots and a norm that is zero at the start of a game.
  `Game.Update` takes the goal and the resulting ball instead.
  - `PongGame.Game.Update`: the ten sub-steps of a tick are not modelled, nor the wall
    and paddle bounces, nor how the spin changes. The model does not relate the given
    ball to the old one or to the goal. At most one goal per tick is assumed. When the
    goal raises, the spin is taken from the given ball as well.
  - `Consumer.GameConsumer.AdvanceGame` and `Consumer.GameConsumer.LoopStep`: they take
    the same goal and resulting ball and pass them on to `Game.Update`, so the same gaps
    apply.
- **Positions are exact reals.** The float rounding of `pos ± 0.2` is not modelled.
- **Timing is not modelled.** This covers asynchronous timing, cancellation and
  concurrent loop tasks. A loop task is a number; one loop step runs at a time; the
  pause wait is a step in which nothing happens.
- **Sending on the websocket** is recorded as an effect; the JSON encoding is not
  modelled.
- **Foreign calls are inputs or logged effects.** This covers:
  - the cache;
  - the ORM;
  - jwt encode/decode;
  - pyotp verification;
  - QR URI generation;
  - the OAuth and refresh HTTP calls;
  - AES.
- **Refresh.** The refresh outcome is a function parameter. As written, `refresh_token`
  (pong/authentication/decorators.py:73-94) names an `API_URL` that the module never
  defines. It also passes an un-awaited coroutine as the refresh token, and
  `set_refresh_token` is called with two arguments but takes one. None of this is
  modelled.
- **Consumer user id.** The route (pong/game/routing.py:7) defines only a `mode`
  argument, so `connect` would find no `userid`. The model takes the user id as a
  constructor argument.
- **Unread fields.** The game's `game_mode` and `winner` fields are never read, and
  `send_callback` is the consumer's; none of these is modelled.
- **Key frames** are maps from names to booleans. A non-boolean value would be stored
  into the key state as it is. JSON values other than an object are modelled only by
  their truthiness.
- `PongGame.Game.constructor`: requires both score keys in the session. Its only caller
  always supplies them; the Python would otherwise start from `None` counters.
- `Consumer.GameConsumer.LoopStep`: requires its task to be running, because the loop body
  only runs inside a live task.
- **Error message order.** The errors dict of `validate_game` is a map, so the order of
  its keys is not modelled.
- **Query parameters.** `int()` parsing of the `page`/`size` query parameters (and its
  ValueError) is left out; `GamePage` takes integers. The JSON shape of each listed game
  is not modelled either.
- **Other parts of the repository are not part of this model:**
  - OAuth login and user creation, beyond the new OTP row;
  - `QRcodeView`;
  - the deprecated `TournamentView`;
  - the DRF views and serializers;
  - `pong/authentication/utils.py`;
  - `pong/app`;
  - settings and routing.

## Findings

| source | as written | input that shows it | evidently intended | confidence | as-written member | corrected member |
|---|---|---|---|---|---|---|
| pong/game/consumers.py:72-83 | the context handed to the game copies only five keys, dropping `user_id` and the tournament bracket, so `save_game_result` and `update_match_result` look up missing keys | any connection, empty cache: the third goal of a normal match raises KeyError("user_id") and no game is saved; a tournament's raises KeyError("matches") | the context carries the user id and, in tournament mode, the bracket (the consumer test mocks it with the full default session) | high, not executed | `Consumer.AsWrittenMatchEndRaises` | `Consumer.CorrectedMatchEndSucceeds` |
| pong/authentication/auth.py:362-368 | `update_otp_success` calls the `sync_to_async`-wrapped `update_otp_data` without awaiting it, so the table keeps its old row | row with 3 attempts, unverified; right code → 200, row unchanged; next wrong code → only 1 attempt left, and `is_verified` stays false, so the QR page is offered again | the success reset (0 attempts, unlocked, verified) is stored | high, not executed | `Auth.SuccessLostAsWritten` | `Auth.SuccessResetsRow` |

The consumer's constructor uses `Consumer.GetSessionDataCorrected`. `Auth.OtpStore.PostOtp`
follows `Auth.Post`, the version in which the success reset is stored.
