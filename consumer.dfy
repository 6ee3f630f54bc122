/** The websocket consumer of pong/game/consumers.py, modelled sequentially: the connection
    picks the mode and builds the game from the cached session, each text frame is a
    command or a key frame, and one iteration of the game loop runs at a time. Tasks are
    numbered instead of being scheduled; the decoded JSON of a frame and the cached
    session are handed in by the caller. */
module Consumer {
  import opened Common
  import opened SessionData
  import opened PongGame

  /** What `json.loads` makes of a frame that is not a command. */
  datatype Parsed =
    | NotJson                          // json.loads raises
    | KeyObject(keys: map<string, bool>) // a JSON object of key states
    | OtherJson(truthy: bool)          // any other JSON value; only its truthiness matters

  /** The Python truthiness of `key_input`. */
  predicate Truthy(p: Parsed)
  {
    match p
    case NotJson => false
    case KeyObject(keys) => |keys| > 0
    case OtherJson(t) => t
  }

  /** What happens to the connection's loop tasks. Cache writes and messages go to the
      game's effect log, which the consumer shares. */
  datatype ConsumerEvent =
    | TaskCreated(id: nat)
    | TaskCancelled(id: nat)
    /** the loop raised and its task ended */
    | TaskFailed(id: nat, error: PyError)

  function OrElse<T>(a: Option<T>, b: T): (r: T)
    ensures a.Some? ==> r == a.value
    ensures a.None? ==> r == b
  {
    if a.Some? then a.value else b
  }

  /** The four names get_session_data falls back to. */
  const DEFAULT_NAMES: seq<string> := ["player1", "player2", "player3", "player4"]

  /** get_session_data as written: the five keys it copies, each with its default; the
      round is read from the key "round" and stored under "game_round". Nothing else of the
      cached session survives. */
  function GetSessionData(cached: Session): (c: Session)
    ensures c.playersName == Some(OrElse(cached.playersName, DEFAULT_NAMES))
    ensures c.winHistory == Some(OrElse(cached.winHistory, []))
    ensures c.gameRound == Some(OrElse(cached.round, 1))
    ensures c.leftScore == Some(OrElse(cached.leftScore, 0))
    ensures c.rightScore == Some(OrElse(cached.rightScore, 0))
    ensures c.userId.None? && c.mode.None? && c.round.None?
    ensures c.currentMatch.None? && c.matchResults.None? && c.matches.None?
  {
    Session(
      userId := None,
      playersName := Some(OrElse(cached.playersName, DEFAULT_NAMES)),
      leftScore := Some(OrElse(cached.leftScore, 0)),
      rightScore := Some(OrElse(cached.rightScore, 0)),
      mode := None,
      round := None,
      gameRound := Some(OrElse(cached.round, 1)),
      winHistory := Some(OrElse(cached.winHistory, [])),
      currentMatch := None,
      matchResults := None,
      matches := None)
  }

  /** get_session_data with the keys the end of a match needs: the user id of the
      connection, its mode and, in tournament mode, the bracket keys, each from the cache
      when it is there and from get_default_session_data otherwise. */
  function GetSessionDataCorrected(cached: Session, userId: UserId, mode: string): (c: Session)
    ensures var base, d := GetSessionData(cached), DefaultSessionData(userId, mode);
            && c.userId == Some(userId) && c.mode == Some(mode)
            && c.playersName == base.playersName && c.winHistory == base.winHistory
            && c.gameRound == base.gameRound && c.round.None?
            && c.leftScore == base.leftScore && c.rightScore == base.rightScore
            && (mode != TOURNAMENT ==> c.currentMatch.None? && c.matchResults.None? && c.matches.None?)
            && (mode == TOURNAMENT ==>
                  && c.currentMatch == Some(OrElse(cached.currentMatch, 0))
                  && c.matchResults == Some(OrElse(cached.matchResults, []))
                  && c.matches == Some(OrElse(cached.matches, InitialMatches())))
  {
    var base := GetSessionData(cached);
    var d := DefaultSessionData(userId, mode);
    if mode == TOURNAMENT then
      base.(userId := Some(userId), mode := Some(mode),
            currentMatch := Some(OrElse(cached.currentMatch, d.currentMatch.value)),
            matchResults := Some(OrElse(cached.matchResults, d.matchResults.value)),
            matches := Some(OrElse(cached.matches, d.matches.value)))
    else
      base.(userId := Some(userId), mode := Some(mode))
  }

  /** A resumed session starts at round 1 whatever was saved: the context stores the round
      under "game_round" but reads it back from "round". */
  lemma {:induction false} ResumeResetsRound(cached: Session)
    ensures var c := GetSessionData(GetSessionData(cached));
            c.gameRound == Some(1) && c.playersName == GetSessionData(cached).playersName &&
            c.winHistory == GetSessionData(cached).winHistory &&
            c.leftScore == GetSessionData(cached).leftScore && c.rightScore == GetSessionData(cached).rightScore
  {
    assert GetSessionData(cached).round.None?;
  }

  /** As written, whatever the cache held, a match played on the context ends in an exception:
      a normal match cannot find "user_id" to save the game, a tournament match cannot find
      "matches". */
  lemma AsWrittenMatchEndRaises(cached: Session, st: MatchState, side: Side, score1: int, score2: int)
    ensures var s := AddPoint(GetSessionData(cached), side);
            && EndMatch(Normal, st, s, score1, score2).raised == Some(KeyError("user_id"))
            && EndMatch(Tournament, st, s, score1, score2).raised == Some(KeyError("matches"))
  {
  }

  /** With the corrected context, a first normal connection saves its game and a first
      tournament connection starts from a well-formed bracket on which every match ends
      without error. */
  lemma {:induction false} CorrectedMatchEndSucceeds(userId: UserId, st: MatchState, side: Side, score1: int, score2: int)
    ensures var s := AddPoint(GetSessionDataCorrected(Empty(), userId, NORMAL), side);
            EndMatch(Normal, st, s, score1, score2).raised.None?
    ensures var t := GetSessionDataCorrected(Empty(), userId, TOURNAMENT);
            && BracketInv(t) && t.currentMatch == Some(0) && t.playersName == Some(DEFAULT_NAMES)
            && EndMatch(Tournament, st, AddPoint(t, side), score1, score2).raised.None?
  {
    var t := GetSessionDataCorrected(Empty(), userId, TOURNAMENT);
    assert t.matches == Some(InitialMatches()) && t.currentMatch == Some(0);
    assert BracketInv(t);
    var t' := AddPoint(t, side);
    assert BracketInv(t');
    TournamentEndsAfterThirdMatch(t', score1, score2);
  }

  /** The corrected context resumes a saved tournament where it stopped. */
  lemma {:induction false} CorrectedResumeKeepsBracket(saved: Session, userId: UserId)
    requires BracketInv(saved)
    ensures var c := GetSessionDataCorrected(saved, userId, TOURNAMENT);
            && BracketInv(c) && c.currentMatch == saved.currentMatch && c.matches == saved.matches
            && c.winHistory == saved.winHistory && c.matchResults == saved.matchResults
            && c.playersName == saved.playersName
  {
  }

  /** The value get_players_name returns: a pair of names, or the whole win history. */
  datatype PlayerNames = Pair(first: string, second: string) | History(winners: seq<int>)

  /** get_players_name (deprecated): the pair playing in the given round. */
  function GetPlayersName(s: Session): (r: Attempt<PlayerNames>)
    ensures s.playersName.None? ==> r == Raised(KeyError("players_name"))
    ensures s.playersName.Some? && s.gameRound.None? ==> r == Raised(KeyError("game_round"))
    ensures s.playersName.Some? && s.gameRound.Some? ==>
              var names, round := s.playersName.value, s.gameRound.value;
              && (round == 1 && |names| >= 2 ==> r == Done(Pair(names[0], names[1])))
              && (round == 2 && |names| >= 4 ==> r == Done(Pair(names[2], names[3])))
              && (round == 3 && s.winHistory.Some? ==> r == Done(History(s.winHistory.value)))
              && (round == 3 && s.winHistory.None? ==> r == Raised(KeyError("win_history")))
              && (round !in {1, 2, 3} ==> r == Done(Pair("player1", "player2")))
              && ((round == 1 && |names| < 2) || (round == 2 && |names| < 4) ==> r == Raised(IndexError))
  {
    if s.playersName.None? then Raised(KeyError("players_name"))
    else if s.gameRound.None? then Raised(KeyError("game_round"))
    else
      var names, round := s.playersName.value, s.gameRound.value;
      if round == 1 then
        if PyIndexOk(|names|, 0) && PyIndexOk(|names|, 1) then Done(Pair(PyAt(names, 0), PyAt(names, 1)))
        else Raised(IndexError)
      else if round == 2 then
        if PyIndexOk(|names|, 2) && PyIndexOk(|names|, 3) then Done(Pair(PyAt(names, 2), PyAt(names, 3)))
        else Raised(IndexError)
      else if round == 3 then
        if s.winHistory.None? then Raised(KeyError("win_history")) else Done(History(s.winHistory.value))
      else Done(Pair("player1", "player2"))
  }

  /** A fresh context always names the first two players. */
  lemma {:induction false} FreshContextNamesFirstPair(cached: Session)
    requires cached.round.None? && cached.playersName.None?
    ensures GetPlayersName(GetSessionData(cached)) == Done(Pair("player1", "player2"))
  {
    assert GetSessionData(cached).playersName.value == DEFAULT_NAMES;
  }

  function VariantOf(mode: string): Variant
  {
    if mode == TOURNAMENT then Tournament else Normal
  }

  /** One websocket connection of GameConsumer. */
  class GameConsumer {
    const mode: string
    const userId: UserId
    const game: Game
    var pause: bool
    /** The last decoded key frame not yet applied; `None` after it was applied. */
    var keyInput: Option<Parsed>
    var gameTask: Option<nat>
    /** The game loops started on this connection and not cancelled. */
    var running: set<nat>
    var nextTask: nat
    var log: seq<ConsumerEvent>

    ghost predicate Valid()
      reads this, game
    {
      && game.Valid()
      && (mode == TOURNAMENT || mode == NORMAL)
      && game.variant == VariantOf(mode)
      && (forall id :: id in running ==> id < nextTask)
      && (gameTask.Some? ==> gameTask.value < nextTask)
    }

    /** connect: `route` is the "mode" of the URL and `cached` what the cache holds under the
        session key of that mode and user (the empty session on a miss). */
    constructor (route: string, userId: UserId, cached: Session)
      ensures Valid() && fresh(game) && fresh(game.keyState)
      ensures mode == (if route == TOURNAMENT then TOURNAMENT else NORMAL)
      ensures (mode == TOURNAMENT) <==> (route == TOURNAMENT)
      ensures this.userId == userId
      ensures game.session == GetSessionDataCorrected(cached, userId, mode)
      ensures game.state == Playing && game.effects == []
      ensures !pause && keyInput.None? && gameTask.None? && running == {} && log == []
    {
      var m := if route == TOURNAMENT then TOURNAMENT else NORMAL;
      mode := m;
      this.userId := userId;
      var session := GetSessionDataCorrected(cached, userId, m);
      game := new Game(VariantOf(m), session);
      pause, keyInput, gameTask := false, None, None;
      running, nextTask, log := {}, 0, [];
    }

    /** receive: "start" starts a further loop (an earlier one keeps running), "pause" and
        "resume" set the gate, any other frame replaces the pending key input, or raises
        when it is not JSON. */
    method Receive(text: string, parsed: Parsed) returns (raised: Option<PyError>)
      requires Valid()
      modifies this`pause, this`keyInput, this`gameTask, this`running, this`nextTask, this`log
      ensures Valid()
      ensures text == "start" ==>
                && raised.None? && gameTask == Some(old(nextTask)) && old(nextTask) !in old(running)
                && running == old(running) + {old(nextTask)} && nextTask == old(nextTask) + 1
                && log == old(log) + [TaskCreated(old(nextTask))]
                && pause == old(pause) && keyInput == old(keyInput)
      ensures text != "start" ==>
                gameTask == old(gameTask) && running == old(running) && nextTask == old(nextTask) && log == old(log)
      ensures text == "pause" ==> raised.None? && pause && keyInput == old(keyInput)
      ensures text == "resume" ==> raised.None? && !pause && keyInput == old(keyInput)
      ensures text !in {"start", "pause", "resume"} ==>
                && pause == old(pause)
                && (parsed.NotJson? ==> raised == Some(JsonDecodeError) && keyInput == old(keyInput))
                && (!parsed.NotJson? ==> raised.None? && keyInput == Some(parsed))
    {
      raised := None;
      if text == "start" {
        StartGame();
      } else if text == "pause" {
        pause := true;
      } else if text == "resume" {
        pause := false;
      } else if parsed.NotJson? {
        raised := Some(JsonDecodeError);
      } else {
        keyInput := Some(parsed);
      }
    }

    /** start_game: a new loop task, remembered as the current one. */
    method StartGame()
      requires Valid()
      modifies this`gameTask, this`running, this`nextTask, this`log
      ensures Valid()
      ensures gameTask == Some(old(nextTask)) && old(nextTask) !in old(running)
      ensures running == old(running) + {old(nextTask)} && nextTask == old(nextTask) + 1
      ensures log == old(log) + [TaskCreated(old(nextTask))]
    {
      var id := nextTask;
      nextTask := nextTask + 1;
      running := running + {id};
      gameTask := Some(id);
      log := log + [TaskCreated(id)];
    }

    /** One iteration of the game loop `task`; `goal` is the goal the tick's physics
        produced, if any, and `after` the ball it left. While paused nothing happens.
        Otherwise a non-empty pending key frame is applied and cleared, the paddles move once
        and the game is updated once. An exception ends the task, since the loop only catches
        its cancellation. */
    method LoopStep(task: nat, goal: Option<Side>, after: Ball) returns (raised: Option<PyError>)
      requires Valid() && task in running
      modifies this`keyInput, this`running, this`log, game.keyState,
               game`ballVec, game`angularVec, game`ballPos, game`ballRot, game`panel1Pos, game`panel2Pos,
               game`player1Score, game`player2Score, game`state, game`session, game`effects
      ensures Valid()
      ensures raised.None? ==> running == old(running) && log == old(log)
      ensures raised.Some? ==> running == old(running) - {task} && log == old(log) + [TaskFailed(task, raised.value)]
      ensures old(pause) ==>
                && raised.None? && keyInput == old(keyInput)
                && unchanged(game) && game.keyState[..] == old(game.keyState[..])
      ensures !old(pause) && old(keyInput) == Some(OtherJson(true)) ==>
                && raised == Some(AttributeError) && keyInput == old(keyInput)
                && unchanged(game) && game.keyState[..] == old(game.keyState[..])
      ensures !old(pause) && old(keyInput) != Some(OtherJson(true)) ==>
                && (old(keyInput).Some? && old(keyInput).value.KeyObject? && Truthy(old(keyInput).value) ==>
                      keyInput.None? && game.keyState[..] == ApplyKeys(old(game.keyState[..]), old(keyInput).value.keys))
                && (old(keyInput).None? || !Truthy(old(keyInput).value) ==>
                      keyInput == old(keyInput) && game.keyState[..] == old(game.keyState[..]))
                && game.panel1Pos == MovedPanel1(old(game.panel1Pos), game.keyState[..])
                && game.panel2Pos == MovedPanel2(old(game.panel2Pos), game.keyState[..])
                && game.ballRot == after.rot
                && (raised.None? ==> game.ballPos == after.pos && game.ballVec == after.vec)
                && (goal.None? ==>
                      && raised.None? && game.session == old(game.session) && game.state == old(game.state)
                      && game.player1Score == old(game.player1Score) && game.player2Score == old(game.player2Score)
                      && game.angularVec == old(game.angularVec)
                      && game.effects == old(game.effects) +
                           [Sent(StateEvent(after.pos, game.panel1Pos, game.panel2Pos, after.rot))])
                && (goal.Some? ==>
                      var g := AfterGoal(game.variant, old(game.state), old(game.session),
                                         old(game.player1Score), old(game.player2Score), goal.value);
                      && game.angularVec == Some(ORIGIN)
                      && game.player1Score == g.player1Score && game.player2Score == g.player2Score
                      && game.state == g.state && game.session == g.session && raised == g.raised
                      && (raised.Some? ==> game.ballPos == ORIGIN && game.ballVec == FORWARD)
                      && game.effects == old(game.effects) + g.effects +
                           (if g.raised.None? then [Sent(StateEvent(after.pos, game.panel1Pos, game.panel2Pos, after.rot))] else []))
    {
      raised := None;
      if pause {
        return;
      }
      if keyInput.Some? && Truthy(keyInput.value) {
        match keyInput.value
        case KeyObject(keys) =>
          game.ProcessKeyInput(keys);
          keyInput := None;
        case OtherJson(_) =>
          raised := Some(AttributeError);
          EndTask(task, AttributeError);
          return;
      }
      raised := AdvanceGame(goal, after);
      if raised.Some? {
        EndTask(task, raised.value);
      }
    }

    /** The last two statements of the loop body: the paddles move once, then the game is
        updated once. */
    method AdvanceGame(goal: Option<Side>, after: Ball) returns (raised: Option<PyError>)
      requires Valid()
      modifies game`ballVec, game`angularVec, game`ballPos, game`ballRot, game`panel1Pos, game`panel2Pos,
               game`player1Score, game`player2Score, game`state, game`session, game`effects
      ensures Valid()
      ensures game.panel1Pos == MovedPanel1(old(game.panel1Pos), game.keyState[..])
      ensures game.panel2Pos == MovedPanel2(old(game.panel2Pos), game.keyState[..])
      ensures game.ballRot == after.rot
      ensures raised.None? ==> game.ballPos == after.pos && game.ballVec == after.vec
      ensures goal.None? ==>
                && raised.None? && game.session == old(game.session) && game.state == old(game.state)
                && game.player1Score == old(game.player1Score) && game.player2Score == old(game.player2Score)
                && game.angularVec == old(game.angularVec)
                && game.effects == old(game.effects) +
                     [Sent(StateEvent(after.pos, game.panel1Pos, game.panel2Pos, after.rot))]
      ensures goal.Some? ==>
                var g := AfterGoal(game.variant, old(game.state), old(game.session),
                                   old(game.player1Score), old(game.player2Score), goal.value);
                && game.angularVec == Some(ORIGIN)
                && game.player1Score == g.player1Score && game.player2Score == g.player2Score
                && game.state == g.state && game.session == g.session && raised == g.raised
                && (raised.Some? ==> game.ballPos == ORIGIN && game.ballVec == FORWARD)
                && game.effects == old(game.effects) + g.effects +
                     (if g.raised.None? then [Sent(StateEvent(after.pos, game.panel1Pos, game.panel2Pos, after.rot))] else [])
    {
      game.MovePanels();
      raised := game.Update(goal, after);
    }

    /** A loop task that raised is over. */
    method EndTask(task: nat, error: PyError)
      requires Valid()
      modifies this`running, this`log
      ensures Valid()
      ensures running == old(running) - {task} && log == old(log) + [TaskFailed(task, error)]
    {
      running := running - {task};
      log := log + [TaskFailed(task, error)];
    }

    /** disconnect: the current loop, if any, is cancelled; then the session is written to the
        cache under the connection's key, whether or not the match has ended. */
    method Disconnect()
      requires Valid()
      modifies this`running, this`log, game`effects
      ensures Valid()
      ensures old(gameTask).Some? ==>
                running == old(running) - {old(gameTask).value} && log == old(log) + [TaskCancelled(old(gameTask).value)]
      ensures old(gameTask).None? ==> running == old(running) && log == old(log)
      ensures game.effects == old(game.effects) + [CacheSet(SessionKey(mode, userId), game.session, SESSION_TTL)]
    {
      if gameTask.Some? {
        running := running - {gameTask.value};
        log := log + [TaskCancelled(gameTask.value)];
      }
      game.effects := game.effects + [CacheSet(SessionKey(mode, userId), game.session, SESSION_TTL)];
    }
  }
}
