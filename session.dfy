/** The session snapshot (a Python dict in the source, pong/game/utils.py) and its
    default constructor. Each dict key the core reads or writes is a field; `None`
    means the key is absent from the dict. */
module SessionData {
  import opened Common

  type UserId = string

  /** One finished tournament match, as appended to `match_results`. */
  datatype MatchResult = MatchResult(
    player1Nick: string,
    player2Nick: string,
    player1Score: int,
    player2Score: int)

  /** A bracket slot holds two player indices; the final starts as `[None, None]`. */
  type Slot = seq<Option<int>>

  datatype Session = Session(
    userId: Option<UserId>,               // "user_id"
    playersName: Option<seq<string>>,     // "players_name"
    leftScore: Option<int>,               // "left_score"
    rightScore: Option<int>,              // "right_score"
    mode: Option<string>,                 // "mode"
    round: Option<int>,                   // "round"
    gameRound: Option<int>,               // "game_round"
    winHistory: Option<seq<int>>,         // "win_history"
    currentMatch: Option<int>,            // "current_match"
    matchResults: Option<seq<MatchResult>>, // "match_results"
    matches: Option<seq<Slot>>)           // "matches"

  /** The empty dict `{}`: what a cache miss yields. */
  function Empty(): (s: Session)
    ensures s.userId.None? && s.playersName.None? && s.leftScore.None? && s.rightScore.None?
    ensures s.winHistory.None? && s.matches.None? && s.currentMatch.None?
  {
    Session(None, None, None, None, None, None, None, None, None, None, None)
  }

  const TOURNAMENT := "tournament"
  const NORMAL := "normal"

  /** Cache entries live for 500 seconds. */
  const SESSION_TTL := 500

  /** The cache key `session_data_{mode}_{user_id}`. */
  datatype SessionKey = SessionKey(mode: string, userId: UserId)

  /** The initial bracket: semifinals 0 v 1 and 2 v 3, the final still open. */
  function InitialMatches(): seq<Slot>
  {
    [[Some(0), Some(1)], [Some(2), Some(3)], [None, None]]
  }

  /** get_default_session_data: the bracket keys exist exactly in the mode spelled "tournament". */
  function DefaultSessionData(userId: UserId, mode: string): (s: Session)
    ensures s.userId == Some(userId) && s.mode == Some(mode)
    ensures s.leftScore == Some(0) && s.rightScore == Some(0)
    ensures s.round.None? && s.gameRound.None?
    ensures mode != TOURNAMENT ==>
              s.playersName == Some(["player1", "player2"]) &&
              s.currentMatch.None? && s.winHistory.None? && s.matchResults.None? && s.matches.None?
    ensures mode == TOURNAMENT ==>
              s.playersName == Some(["player1", "player2", "player3", "player3"]) &&
              s.currentMatch == Some(0) && s.winHistory == Some([]) && s.matchResults == Some([]) &&
              s.matches == Some(InitialMatches())
  {
    var base := Session(Some(userId), Some(["player1", "player2"]), Some(0), Some(0), Some(mode),
                        None, None, None, None, None, None);
    if mode == TOURNAMENT then
      assert base.playersName.value + ["player3", "player3"] == ["player1", "player2", "player3", "player3"];
      base.(currentMatch := Some(0), winHistory := Some([]), matchResults := Some([]),
            matches := Some(InitialMatches()),
            playersName := Some(base.playersName.value + ["player3", "player3"]))
    else
      base
  }

  /** The mode name is compared case-sensitively: "Tournament" yields a two-player session. */
  lemma CapitalisedModeIsNotTournament(userId: UserId)
    ensures var s := DefaultSessionData(userId, "Tournament");
            |s.playersName.value| == 2 && s.matches.None? && s.mode == Some("Tournament")
  {
  }

  /** Is `p` one of the two players of slot `slot`? */
  predicate InSlot(slot: Slot, p: int)
  {
    |slot| == 2 && (slot[0] == Some(p) || slot[1] == Some(p))
  }

  /** The shape of a tournament session between matches: `current_match` counts the matches
      played, each played match left one result and one winner (a player of that match),
      and the final's slot is filled exactly once both semifinals are over. */
  ghost predicate BracketInv(s: Session)
  {
    && s.currentMatch.Some? && s.matches.Some? && s.winHistory.Some? && s.matchResults.Some?
    && s.playersName.Some? && |s.playersName.value| == 4
    && var cm, ms, wh := s.currentMatch.value, s.matches.value, s.winHistory.value;
       && 0 <= cm <= 3
       && |wh| == cm && |s.matchResults.value| == cm
       && |ms| == 3 && ms[0] == [Some(0), Some(1)] && ms[1] == [Some(2), Some(3)]
       && (cm < 2 ==> ms[2] == [None, None])
       && (cm >= 2 ==> ms[2] == [Some(wh[0]), Some(wh[1])])
       && (forall i :: 0 <= i < cm ==> InSlot(ms[i], wh[i]))
  }

  lemma {:induction false} DefaultTournamentIsBracket(userId: UserId)
    ensures BracketInv(DefaultSessionData(userId, TOURNAMENT))
  {
    var s := DefaultSessionData(userId, TOURNAMENT);
    assert s.currentMatch == Some(0) && s.matches == Some(InitialMatches());
  }
}
