/** The match rules of pong/game/ponggame.py: key table, paddle movement, scoring and
    the two end-of-match behaviours. The abstract base with its two subclasses is a
    single class tagged with its variant. Ball physics is not modelled: `Update` is told
    whether the tick produced a goal. Cache writes, database creates and messages sent to
    the client are appended, in order, to the game's `effects` log. */
module PongGame {
  import opened Common
  import opened SessionData

  const GAME_END_SCORE := 3

  /** The number of entries of `key_state` (W, A, S, D, Up, Left, Down, Right). */
  const KEY_COUNT := 8

  const KEY_MAPPING: map<string, nat> := map[
    "KeyW" := 0, "KeyA" := 1, "KeyS" := 2, "KeyD" := 3,
    "ArrowUp" := 4, "ArrowDown" := 6, "ArrowLeft" := 5, "ArrowRight" := 7]

  /** The key whose state is kept at index `i`: the inverse of KEY_MAPPING. */
  function KeyAt(i: nat): (k: string)
    requires i < KEY_COUNT
    ensures k in KEY_MAPPING && KEY_MAPPING[k] == i
  {
    ["KeyW", "KeyA", "KeyS", "KeyD", "ArrowUp", "ArrowLeft", "ArrowDown", "ArrowRight"][i]
  }

  /** KEY_MAPPING is a bijection between its eight key names and the indices 0..7. */
  lemma KeyMappingIsBijective()
    ensures forall k :: k in KEY_MAPPING ==> KEY_MAPPING[k] < KEY_COUNT && KeyAt(KEY_MAPPING[k]) == k
    ensures forall k1, k2 :: k1 in KEY_MAPPING && k2 in KEY_MAPPING && KEY_MAPPING[k1] == KEY_MAPPING[k2] ==> k1 == k2
    ensures |KEY_MAPPING| == KEY_COUNT
    ensures KEY_MAPPING["ArrowLeft"] == 5 && KEY_MAPPING["ArrowDown"] == 6
  {
    assert KEY_MAPPING.Keys == {"KeyW", "KeyA", "KeyS", "KeyD", "ArrowUp", "ArrowDown", "ArrowLeft", "ArrowRight"};
  }

  /** The key state after process_key_input: every mapped key of the frame sets its own
      entry, every other entry keeps its value, and unmapped names are ignored. */
  function ApplyKeys(ks: seq<bool>, frame: map<string, bool>): (r: seq<bool>)
    requires |ks| == KEY_COUNT
    ensures |r| == KEY_COUNT
    ensures forall k :: k in frame && k in KEY_MAPPING ==> r[KEY_MAPPING[k]] == frame[k]
    ensures forall i :: 0 <= i < KEY_COUNT && KeyAt(i) !in frame ==> r[i] == ks[i]
  {
    KeyMappingIsBijective();
    seq(KEY_COUNT, i requires 0 <= i < KEY_COUNT => if KeyAt(i) in frame then frame[KeyAt(i)] else ks[i])
  }

  /** Only the mapped names of a frame matter. */
  lemma ApplyKeysIgnoresUnmapped(ks: seq<bool>, frame: map<string, bool>)
    requires |ks| == KEY_COUNT
    ensures ApplyKeys(ks, frame) == ApplyKeys(ks, map k | k in frame && k in KEY_MAPPING :: frame[k])
  {
  }

  datatype Vec3 = Vec3(x: real, y: real, z: real)

  const ORIGIN := Vec3(0.0, 0.0, 0.0)
  const FORWARD := Vec3(0.0, 0.0, 1.0)

  /** The distance a held key moves a paddle per tick (`ball_speed` in the source). */
  const PANEL_STEP: real := 0.2
  const PANEL_LIMIT: real := 7.0

  predicate InRange(p: Vec3)
  {
    -PANEL_LIMIT <= p.x <= PANEL_LIMIT && -PANEL_LIMIT <= p.y <= PANEL_LIMIT
  }

  function Abs(r: real): real
  {
    if r < 0.0 then -r else r
  }

  /** clamp_panel_pos */
  function ClampPanelPos(pos: real): (r: real)
    ensures -PANEL_LIMIT <= r <= PANEL_LIMIT
    ensures -PANEL_LIMIT <= pos <= PANEL_LIMIT ==> r == pos
    ensures pos > PANEL_LIMIT ==> r == PANEL_LIMIT
    ensures pos < -PANEL_LIMIT ==> r == -PANEL_LIMIT
  {
    if Abs(pos) > PANEL_LIMIT then
      if pos < -PANEL_LIMIT then -PANEL_LIMIT
      else if pos > PANEL_LIMIT then PANEL_LIMIT
      else pos
    else pos
  }

  /** One `if first ... elif second ...` arm of move_panels on one axis: `first` moves by
      `delta`, `second` by `-delta`, neither leaves the position alone. */
  function AxisStep(pos: real, first: bool, second: bool, delta: real): (r: real)
    requires delta == PANEL_STEP || delta == -PANEL_STEP
    requires -PANEL_LIMIT <= pos <= PANEL_LIMIT
    ensures -PANEL_LIMIT <= r <= PANEL_LIMIT
    ensures Abs(r - pos) <= PANEL_STEP
    ensures !first && !second ==> r == pos
    ensures first ==> r == ClampPanelPos(pos + delta)
    ensures !first && second ==> r == ClampPanelPos(pos - delta)
  {
    if first then ClampPanelPos(pos + delta)
    else if second then ClampPanelPos(pos - delta)
    else pos
  }

  /** Paddle 1 after move_panels: W up, S down, A left, D right; z never changes. */
  function MovedPanel1(p: Vec3, ks: seq<bool>): (r: Vec3)
    requires |ks| == KEY_COUNT && InRange(p)
    ensures InRange(r) && r.z == p.z
    ensures Abs(r.x - p.x) <= PANEL_STEP && Abs(r.y - p.y) <= PANEL_STEP
  {
    Vec3(AxisStep(p.x, ks[1], ks[3], -PANEL_STEP), AxisStep(p.y, ks[0], ks[2], PANEL_STEP), p.z)
  }

  /** Paddle 2 after move_panels: ArrowUp up, ArrowDown down, and in x mirrored:
      ArrowLeft adds the step, ArrowRight subtracts it. */
  function MovedPanel2(p: Vec3, ks: seq<bool>): (r: Vec3)
    requires |ks| == KEY_COUNT && InRange(p)
    ensures InRange(r) && r.z == p.z
    ensures Abs(r.x - p.x) <= PANEL_STEP && Abs(r.y - p.y) <= PANEL_STEP
  {
    Vec3(AxisStep(p.x, ks[5], ks[7], PANEL_STEP), AxisStep(p.y, ks[4], ks[6], PANEL_STEP), p.z)
  }

  /** With both keys of an axis held, the first-checked key wins: W over S, A over D,
      ArrowUp over ArrowDown, ArrowLeft over ArrowRight. */
  lemma FirstKeyWins(p1: Vec3, p2: Vec3, ks: seq<bool>)
    requires |ks| == KEY_COUNT && InRange(p1) && InRange(p2)
    ensures ks[0] ==> MovedPanel1(p1, ks).y == ClampPanelPos(p1.y + PANEL_STEP)
    ensures ks[1] ==> MovedPanel1(p1, ks).x == ClampPanelPos(p1.x - PANEL_STEP)
    ensures ks[4] ==> MovedPanel2(p2, ks).y == ClampPanelPos(p2.y + PANEL_STEP)
    ensures ks[5] ==> MovedPanel2(p2, ks).x == ClampPanelPos(p2.x + PANEL_STEP)
  {
  }

  /** is_ball_in_panel: the ball's centre is within 4 of the paddle's centre on both x and y. */
  function IsBallInPanel(ball: Vec3, panel: Vec3): (r: bool)
    ensures r <==> Abs(ball.x - panel.x) <= 4.0 && Abs(ball.y - panel.y) <= 4.0
  {
    if Abs(ball.x - panel.x) > 4.0 then false
    else if Abs(ball.y - panel.y) > 4.0 then false
    else true
  }

  /** Whether the ball is at a paddle does not depend on which of the two is asked about,
      nor on either z coordinate. */
  lemma BallInPanelSymmetric(ball: Vec3, panel: Vec3, z1: real, z2: real)
    ensures IsBallInPanel(ball, panel) == IsBallInPanel(panel, ball)
    ensures IsBallInPanel(ball, panel) == IsBallInPanel(ball.(z := z1), panel.(z := z2))
  {
  }

  /** The ball: position, direction and spin (`ball_rot`). */
  datatype Ball = Ball(pos: Vec3, vec: Vec3, rot: Vec3)

  datatype Side = Left | Right

  datatype Variant = Normal | Tournament

  datatype MatchState = Playing | Ended

  datatype Event =
    | StateEvent(ballPos: Vec3, panel1: Vec3, panel2: Vec3, ballRot: Vec3)
    | ScoreEvent(leftScore: int, rightScore: int)
    | GameEndEvent

  /** A row of the Game table; `inTournament` says whether it carries a tournament id. */
  datatype GameRecord = GameRecord(
    userId: UserId, inTournament: bool,
    player1Nick: string, player2Nick: string,
    player1Score: int, player2Score: int, mode: string)

  /** What the game does to the world outside it. */
  datatype Effect =
    | Sent(event: Event)
    | CacheSet(key: SessionKey, value: Session, ttl: int)
    | CacheDelete(key: SessionKey)
    | GameCreated(record: GameRecord)
    | TournamentCreated(userId: UserId)
    | TournamentSaved

  /** The session after update_match_result, and the exception it raised, if any (the dict is
      changed in place, so a late exception leaves the earlier changes behind). */
  datatype Outcome = Outcome(session: Session, raised: Option<PyError>)

  /** update_match_result on the session dict, up to its final cache write. */
  function RecordMatch(data: Session, score1: int, score2: int): (o: Outcome)
    ensures o.raised.None? ==>
      && data.matches.Some? && data.currentMatch.Some? && data.playersName.Some?
      && data.matchResults.Some? && data.winHistory.Some?
      && var cm, ms := data.currentMatch.value, data.matches.value;
         && PyIndexOk(|ms|, cm) && |PyAt(ms, cm)| == 2
         && PyAt(ms, cm)[0].Some? && PyAt(ms, cm)[1].Some?
         && var p1, p2 := PyAt(ms, cm)[0].value, PyAt(ms, cm)[1].value;
            var names := data.playersName.value;
            && PyIndexOk(|names|, p1) && PyIndexOk(|names|, p2)
            && o.session == data.(
                 matchResults := Some(data.matchResults.value + [MatchResult(PyAt(names, p1), PyAt(names, p2), score1, score2)]),
                 winHistory := Some(data.winHistory.value + [if score1 > score2 then p1 else p2]),
                 currentMatch := Some(cm + 1),
                 leftScore := Some(0), rightScore := Some(0),
                 matches := o.session.matches)
            && (cm + 1 != 2 ==> o.session.matches == data.matches)
            && (cm + 1 == 2 ==>
                  && |ms| > 2 && |ms[2]| >= 2 && |o.session.winHistory.value| >= 2
                  && o.session.matches.Some? && |o.session.matches.value| == |ms|
                  && o.session.matches.value[2] ==
                       ms[2][0 := Some(o.session.winHistory.value[0])][1 := Some(o.session.winHistory.value[1])]
                  && forall i :: 0 <= i < |ms| && i != 2 ==> o.session.matches.value[i] == ms[i])
    // Whatever happens, only the six bracket and score keys are written ...
    ensures o.session.(matchResults := data.matchResults, winHistory := data.winHistory,
                       currentMatch := data.currentMatch, leftScore := data.leftScore,
                       rightScore := data.rightScore, matches := data.matches) == data
    // ... and an exception raised before the result is appended leaves the dict as it was.
    ensures o.raised.Some? && o.session.matchResults == data.matchResults ==> o.session == data
    ensures o.session.leftScore == data.leftScore || o.session.leftScore == Some(0)
    ensures o.session.rightScore == data.rightScore || o.session.rightScore == Some(0)
  {
    if data.matches.None? then Outcome(data, Some(KeyError("matches")))
    else if data.currentMatch.None? then Outcome(data, Some(KeyError("current_match")))
    else
      var ms, cm := data.matches.value, data.currentMatch.value;
      if !PyIndexOk(|ms|, cm) then Outcome(data, Some(IndexError))
      else
        var slot := PyAt(ms, cm);
        if |slot| != 2 then Outcome(data, Some(ValueError))
        else if data.playersName.None? then Outcome(data, Some(KeyError("players_name")))
        else
          var names := data.playersName.value;
          var p1, p2 := slot[0], slot[1];
          if p1.None? then Outcome(data, Some(TypeError))
          else if !PyIndexOk(|names|, p1.value) then Outcome(data, Some(IndexError))
          else if p2.None? then Outcome(data, Some(TypeError))
          else if !PyIndexOk(|names|, p2.value) then Outcome(data, Some(IndexError))
          else if data.matchResults.None? then Outcome(data, Some(KeyError("match_results")))
          else
            var result := MatchResult(PyAt(names, p1.value), PyAt(names, p2.value), score1, score2);
            var d1 := data.(matchResults := Some(data.matchResults.value + [result]),
                            leftScore := Some(0), rightScore := Some(0));
            var winner := if score1 > score2 then p1.value else p2.value;
            if d1.winHistory.None? then Outcome(d1, Some(KeyError("win_history")))
            else
              var wh := d1.winHistory.value + [winner];
              var d2 := d1.(winHistory := Some(wh), currentMatch := Some(cm + 1));
              if cm + 1 != 2 then Outcome(d2, None)
              else WireFinal(d2, ms, wh)
  }

  /** `matches[2][0] = win_history[0]; matches[2][1] = win_history[1]`, each assignment
      raising IndexError on its own. */
  function WireFinal(d: Session, ms: seq<Slot>, wh: seq<int>): (o: Outcome)
    requires |wh| >= 1 && d.matches == Some(ms) && d.winHistory == Some(wh)
    ensures o.session.userId == d.userId && o.session.playersName == d.playersName
    ensures o.session.leftScore == d.leftScore && o.session.rightScore == d.rightScore
    ensures o.session.winHistory == d.winHistory && o.session.currentMatch == d.currentMatch
    ensures o.session.matchResults == d.matchResults && o.session.mode == d.mode
    ensures o.raised.None? <==> |ms| > 2 && |ms[2]| >= 2 && |wh| >= 2
    ensures o.raised.None? ==>
              o.session.matches.Some? && |o.session.matches.value| == |ms| &&
              o.session.matches.value[2] == ms[2][0 := Some(wh[0])][1 := Some(wh[1])] &&
              forall i :: 0 <= i < |ms| && i != 2 ==> o.session.matches.value[i] == ms[i]
  {
    if |ms| <= 2 || |ms[2]| < 1 then Outcome(d, Some(IndexError))
    else
      var ms1 := ms[2 := ms[2][0 := Some(wh[0])]];
      var d1 := d.(matches := Some(ms1));
      if |wh| < 2 || |ms1[2]| < 2 then Outcome(d1, Some(IndexError))
      else Outcome(d1.(matches := Some(ms1[2 := ms1[2][1 := Some(wh[1])]])), None)
  }

  /** A tournament match that was played from a well-formed bracket records cleanly, keeps the
      bracket well-formed and names one of that match's two players as its winner. */
  lemma {:induction false} RecordMatchKeepsBracket(data: Session, score1: int, score2: int)
    requires BracketInv(data) && data.currentMatch.value < 3
    ensures var o := RecordMatch(data, score1, score2);
            && o.raised.None? && BracketInv(o.session)
            && o.session.currentMatch == Some(data.currentMatch.value + 1)
            && InSlot(data.matches.value[data.currentMatch.value], o.session.winHistory.value[data.currentMatch.value])
  {
    var o := RecordMatch(data, score1, score2);
    var cm, ms, wh := data.currentMatch.value, data.matches.value, data.winHistory.value;
    assert PyIndexOk(|ms|, cm) && PyAt(ms, cm) == ms[cm];
    var slot := ms[cm];
    assert slot[0].Some? && slot[1].Some? by {
      if cm == 2 { assert slot == [Some(wh[0]), Some(wh[1])]; }
    }
    var s := o.session;
    var wh' := s.winHistory.value;
    assert wh' == wh + [if score1 > score2 then slot[0].value else slot[1].value];
    assert InSlot(ms[cm], wh'[cm]);
    if cm + 1 == 2 {
      assert s.matches.value[2] == [Some(wh'[0]), Some(wh'[1])];
      assert s.matches.value[0] == ms[0] && s.matches.value[1] == ms[1];
    }
    forall i | 0 <= i < cm + 1
      ensures InSlot(s.matches.value[i], wh'[i])
    {
      if i < cm { assert wh'[i] == wh[i]; }
    }
  }

  /** Once three matches are recorded, a further end of match indexes past the bracket. */
  lemma FinishedBracketRaises(data: Session, score1: int, score2: int)
    requires BracketInv(data) && data.currentMatch.value == 3
    ensures RecordMatch(data, score1, score2) == Outcome(data, Some(IndexError))
  {
  }

  /** Ties go to the second player of the match. */
  lemma TieGoesToPlayer2(data: Session, score: int)
    requires BracketInv(data) && data.currentMatch.value < 3
    ensures var o := RecordMatch(data, score, score);
            var cm := data.currentMatch.value;
            o.session.winHistory.value[cm] == data.matches.value[cm][1].value
  {
    RecordMatchKeepsBracket(data, score, score);
  }

  /** Records the matches whose final scores are listed, one after the other. */
  ghost function PlayMatches(data: Session, scores: seq<(int, int)>): Outcome
    decreases |scores|
  {
    if scores == [] then Outcome(data, None)
    else
      var o := RecordMatch(data, scores[0].0, scores[0].1);
      if o.raised.Some? then o else PlayMatches(o.session, scores[1..])
  }

  /** A tournament session from its default runs through its three matches without error;
      afterwards `current_match` is 3, three results and winners are recorded, and the final's
      slot holds the two semifinal winners in order. */
  lemma {:induction false} BracketRuns(data: Session, scores: seq<(int, int)>)
    requires BracketInv(data) && data.currentMatch.value + |scores| <= 3
    ensures var o := PlayMatches(data, scores);
            && o.raised.None? && BracketInv(o.session)
            && o.session.currentMatch == Some(data.currentMatch.value + |scores|)
    decreases |scores|
  {
    if scores != [] {
      RecordMatchKeepsBracket(data, scores[0].0, scores[0].1);
      var o := RecordMatch(data, scores[0].0, scores[0].1);
      BracketRuns(o.session, scores[1..]);
    }
  }

  /** Semifinal 0 won by its left player (index 0) and semifinal 1 by its right player
      (index 3) wire [0, 3] into the final and leave `current_match` at 2. */
  lemma SemifinalsScenario(userId: UserId)
    ensures var o := PlayMatches(DefaultSessionData(userId, TOURNAMENT), [(3, 1), (0, 3)]);
            o.raised.None? && o.session.currentMatch == Some(2) &&
            o.session.matches.value[2] == [Some(0), Some(3)] && o.session.winHistory == Some([0, 3])
  {
    var d := DefaultSessionData(userId, TOURNAMENT);
    DefaultTournamentIsBracket(userId);
    RecordMatchKeepsBracket(d, 3, 1);
    var o1 := RecordMatch(d, 3, 1);
    assert o1.session.winHistory.value == [] + [0];
    RecordMatchKeepsBracket(o1.session, 0, 3);
    var o2 := RecordMatch(o1.session, 0, 3);
    assert o2.session.winHistory.value == [0] + [3] == [0, 3];
    assert PlayMatches(o1.session, [(0, 3)]) == o2;
    assert [(3, 1), (0, 3)][1..] == [(0, 3)];
    assert PlayMatches(d, [(3, 1), (0, 3)]) == o2;
    assert o2.session.winHistory == Some([0, 3]);
  }

  /** The row save_game_result creates for a normal match. */
  function NormalGameRecord(data: Session): (r: Attempt<GameRecord>)
    ensures r.Done? <==>
              data.userId.Some? && data.playersName.Some? && |data.playersName.value| >= 2 &&
              data.leftScore.Some? && data.rightScore.Some?
    ensures r.Done? ==>
              r.value == GameRecord(data.userId.value, false, data.playersName.value[0],
                                    data.playersName.value[1], data.leftScore.value,
                                    data.rightScore.value, "1on1")
  {
    if data.userId.None? then Raised(KeyError("user_id"))
    else if data.playersName.None? then Raised(KeyError("players_name"))
    else if !PyIndexOk(|data.playersName.value|, 0) then Raised(IndexError)
    else if !PyIndexOk(|data.playersName.value|, 1) then Raised(IndexError)
    else if data.leftScore.None? then Raised(KeyError("left_score"))
    else if data.rightScore.None? then Raised(KeyError("right_score"))
    else
      var names := data.playersName.value;
      Done(GameRecord(data.userId.value, false, PyAt(names, 0), PyAt(names, 1),
                      data.leftScore.value, data.rightScore.value, "1on1"))
  }

  /** The row save_tournament_results creates for one recorded match. */
  function TournamentGameRecord(userId: UserId, m: MatchResult): (r: GameRecord)
    ensures r.userId == userId && r.inTournament && r.mode == "Tournament"
    ensures r.player1Nick == m.player1Nick && r.player2Nick == m.player2Nick
    ensures r.player1Score == m.player1Score && r.player2Score == m.player2Score
  {
    GameRecord(userId, true, m.player1Nick, m.player2Nick, m.player1Score, m.player2Score, "Tournament")
  }

  /** One Game row per recorded match, in order. */
  function TournamentGames(userId: UserId, results: seq<MatchResult>): (r: seq<Effect>)
    ensures |r| == |results|
    ensures forall i :: 0 <= i < |results| ==> r[i] == GameCreated(TournamentGameRecord(userId, results[i]))
  {
    seq(|results|, i requires 0 <= i < |results| => GameCreated(TournamentGameRecord(userId, results[i])))
  }

  /** What the end-of-match hook leaves behind: the match state, the session, the effects it
      produced, and the exception it raised, if any. */
  datatype EndOutcome = EndOutcome(state: MatchState, session: Session, effects: seq<Effect>, raised: Option<PyError>)

  /** set_game_ended of either variant. */
  function EndMatch(variant: Variant, st: MatchState, data: Session, score1: int, score2: int): (e: EndOutcome)
    // Normal mode: ended at once (before anything can raise), one 1-on-1 row, the
    // normal-mode snapshot deleted, then the end event.
    ensures variant == Normal ==> e.state == Ended && e.session == data
    ensures variant == Normal && e.raised.None? ==>
              data.userId.Some? && NormalGameRecord(data).Done? &&
              e.effects == [GameCreated(NormalGameRecord(data).value),
                            CacheDelete(SessionKey(NORMAL, data.userId.value)),
                            Sent(GameEndEvent)]
    ensures variant == Normal ==> (e.raised.None? <==> NormalGameRecord(data).Done?)
    // Tournament mode: the match is recorded and the snapshot written back; the session
    // ends only once all three matches are played, and only then are rows created.
    ensures variant == Tournament ==> e.session == RecordMatch(data, score1, score2).session
    ensures variant == Tournament && e.raised.None? ==>
              && RecordMatch(data, score1, score2).raised.None?
              && e.session.userId.Some? && e.session.currentMatch.Some? && e.session.matchResults.Some?
              && var uid := e.session.userId.value;
                 var ended := e.session.currentMatch.value >= 3;
                 && e.state == (if ended then Ended else st)
                 && e.effects ==
                      [CacheSet(SessionKey(TOURNAMENT, uid), e.session, SESSION_TTL)] +
                      (if ended then [TournamentCreated(uid)] + TournamentGames(uid, e.session.matchResults.value) + [TournamentSaved]
                       else []) +
                      [Sent(GameEndEvent)]
    ensures variant == Tournament && e.raised.Some? ==> e.state == st && e.effects == []
  {
    match variant
    case Normal =>
      (match NormalGameRecord(data)
       case Raised(err) => EndOutcome(Ended, data, [], Some(err))
       case Done(rec) =>
         EndOutcome(Ended, data,
                    [GameCreated(rec), CacheDelete(SessionKey(NORMAL, data.userId.value)), Sent(GameEndEvent)],
                    None))
    case Tournament =>
      var o := RecordMatch(data, score1, score2);
      if o.raised.Some? then EndOutcome(st, o.session, [], o.raised)
      else if o.session.userId.None? then EndOutcome(st, o.session, [], Some(KeyError("user_id")))
      else
        var uid := o.session.userId.value;
        var written := [CacheSet(SessionKey(TOURNAMENT, uid), o.session, SESSION_TTL)];
        if o.session.currentMatch.value >= 3 then
          EndOutcome(Ended, o.session,
                     written + [TournamentCreated(uid)] + TournamentGames(uid, o.session.matchResults.value) +
                     [TournamentSaved] + [Sent(GameEndEvent)],
                     None)
        else
          EndOutcome(st, o.session, written + [Sent(GameEndEvent)], None)
  }

  /** The tournament session is declared ended by the third recorded match and not before. */
  lemma {:induction false} TournamentEndsAfterThirdMatch(data: Session, score1: int, score2: int)
    requires BracketInv(data) && data.currentMatch.value < 3 && data.userId.Some?
    ensures var e := EndMatch(Tournament, Playing, data, score1, score2);
            e.raised.None? && (e.state == Ended <==> data.currentMatch.value == 2)
  {
    RecordMatchKeepsBracket(data, score1, score2);
  }

  /** The session with one more point for `side`. */
  function AddPoint(s: Session, side: Side): (r: Session)
    requires s.leftScore.Some? && s.rightScore.Some?
    ensures side == Left ==> r == s.(leftScore := Some(s.leftScore.value + 1))
    ensures side == Right ==> r == s.(rightScore := Some(s.rightScore.value + 1))
  {
    match side
    case Left => s.(leftScore := Some(s.leftScore.value + 1))
    case Right => s.(rightScore := Some(s.rightScore.value + 1))
  }

  /** The scores, state, session, effects and exception player_win leaves behind. */
  datatype GoalOutcome = GoalOutcome(
    player1Score: int, player2Score: int, state: MatchState, session: Session,
    effects: seq<Effect>, raised: Option<PyError>)

  /** Has the scoring side reached the end-of-match score? */
  predicate Reached(side: Side, score1: int, score2: int)
  {
    if side == Left then score1 >= GAME_END_SCORE else score2 >= GAME_END_SCORE
  }

  /** player_win on everything but the ball: one point for `side` in the game and in the
      session; the end-of-match hook when that side reaches GAME_END_SCORE; then the score
      event, unless the hook raised. */
  function AfterGoal(variant: Variant, st: MatchState, session: Session, score1: int, score2: int, side: Side): (g: GoalOutcome)
    requires session.leftScore.Some? && session.rightScore.Some?
    ensures g.player1Score == score1 + (if side == Left then 1 else 0)
    ensures g.player2Score == score2 + (if side == Right then 1 else 0)
    ensures !Reached(side, g.player1Score, g.player2Score) ==>
              g == GoalOutcome(g.player1Score, g.player2Score, st, AddPoint(session, side),
                               [Sent(ScoreEvent(g.player1Score, g.player2Score))], None)
    ensures Reached(side, g.player1Score, g.player2Score) ==>
              var e := EndMatch(variant, st, AddPoint(session, side), g.player1Score, g.player2Score);
              g.state == e.state && g.session == e.session && g.raised == e.raised &&
              g.effects == e.effects + (if e.raised.None? then [Sent(ScoreEvent(g.player1Score, g.player2Score))] else [])
    ensures g.raised.None? ==> |g.effects| > 0 && g.effects[|g.effects| - 1] == Sent(ScoreEvent(g.player1Score, g.player2Score))
  {
    var s1 := if side == Left then score1 + 1 else score1;
    var s2 := if side == Right then score2 + 1 else score2;
    var mid := AddPoint(session, side);
    if !Reached(side, s1, s2) then
      GoalOutcome(s1, s2, st, mid, [Sent(ScoreEvent(s1, s2))], None)
    else
      var e := EndMatch(variant, st, mid, s1, s2);
      GoalOutcome(s1, s2, e.state, e.session,
                  e.effects + (if e.raised.None? then [Sent(ScoreEvent(s1, s2))] else []), e.raised)
  }

  /** In a normal match the goal that brings a side to GAME_END_SCORE, and only that goal, ends
      the match; before it every goal just reports the score. */
  lemma {:induction false} NormalGoalEndsMatchIffReached(st: MatchState, session: Session, score1: int, score2: int, side: Side)
    requires session.leftScore.Some? && session.rightScore.Some? && st == Playing
    ensures var g := AfterGoal(Normal, st, session, score1, score2, side);
            g.state == Ended <==> Reached(side, g.player1Score, g.player2Score)
  {
  }

  /** In a tournament, from a well-formed bracket: a goal below the threshold only reports the
      score; the goal that reaches it records the match, and the game-end event is sent, after
      which the score is reported; the session ends only with the third match. */
  lemma {:induction false} TournamentGoalRecordsMatchIffReached(session: Session, score1: int, score2: int, side: Side)
    requires BracketInv(session) && session.currentMatch.value < 3 && session.userId.Some?
    requires session.leftScore.Some? && session.rightScore.Some?
    ensures var g := AfterGoal(Tournament, Playing, session, score1, score2, side);
            && g.raised.None?
            && (Sent(GameEndEvent) in g.effects <==> Reached(side, g.player1Score, g.player2Score))
            && (Reached(side, g.player1Score, g.player2Score) ==>
                  g.session.currentMatch == Some(session.currentMatch.value + 1) &&
                  (g.state == Ended <==> session.currentMatch.value == 2))
            && (!Reached(side, g.player1Score, g.player2Score) ==> g.state == Playing && g.session == AddPoint(session, side))
  {
    var g := AfterGoal(Tournament, Playing, session, score1, score2, side);
    var mid := AddPoint(session, side);
    assert BracketInv(mid);
    if Reached(side, g.player1Score, g.player2Score) {
      TournamentEndsAfterThirdMatch(mid, g.player1Score, g.player2Score);
      var e := EndMatch(Tournament, Playing, mid, g.player1Score, g.player2Score);
      assert e.effects[|e.effects| - 1] == Sent(GameEndEvent);
      assert g.effects[|e.effects| - 1] == Sent(GameEndEvent);
    } else {
      assert g.effects == [Sent(ScoreEvent(g.player1Score, g.player2Score))];
    }
  }

  /** The game's counters are not reset between tournament matches, so after a 3-0 win the
      next match ends on the first goal of the previous winner, while a goal of the other
      side only reports the score. */
  lemma {:induction false} CarriedCountersDecideNextMatch(session: Session)
    requires session.leftScore.Some? && session.rightScore.Some?
    ensures var g := AfterGoal(Tournament, Playing, session, 3, 0, Right);
            g.state == Playing && g.raised.None? && Sent(GameEndEvent) !in g.effects
    ensures var g := AfterGoal(Tournament, Playing, session, 3, 0, Left);
            Reached(Left, g.player1Score, g.player2Score) &&
            g.state == EndMatch(Tournament, Playing, AddPoint(session, Left), 4, 0).state
  {
    var g := AfterGoal(Tournament, Playing, session, 3, 0, Right);
    assert g.effects == [Sent(ScoreEvent(3, 1))];
  }

  /** One match of Pong: the paddles, the ball, the scores and the session snapshot. */
  class Game {
    const variant: Variant
    /** [W, A, S, D, Up, Left, Down, Right] */
    const keyState: array<bool>
    var ballPos: Vec3
    var ballVec: Vec3
    var ballRot: Vec3
    /** Set by reset_ball (which assigns `angular_vec`, not `ball_rot`); never read. */
    var angularVec: Option<Vec3>
    var panel1Pos: Vec3
    var panel2Pos: Vec3
    var state: MatchState
    var session: Session
    var player1Score: int
    var player2Score: int
    var effects: seq<Effect>

    ghost predicate Valid()
      reads this
    {
      && keyState.Length == KEY_COUNT
      && InRange(panel1Pos) && InRange(panel2Pos)
      && session.leftScore.Some? && session.rightScore.Some?
    }

    /** PongGame.__init__; the only caller hands over a session that has both score keys. */
    constructor (variant: Variant, session: Session)
      requires session.leftScore.Some? && session.rightScore.Some?
      ensures Valid() && fresh(keyState)
      ensures this.variant == variant && this.session == session
      ensures keyState[..] == seq(KEY_COUNT, _ => false)
      ensures ballPos == ORIGIN && ballVec == FORWARD && ballRot == ORIGIN && angularVec.None?
      ensures panel1Pos == Vec3(0.0, 0.0, 50.0) && panel2Pos == Vec3(0.0, 0.0, -50.0)
      ensures state == Playing && effects == []
      ensures player1Score == session.leftScore.value && player2Score == session.rightScore.value
    {
      this.variant := variant;
      keyState := new bool[KEY_COUNT](_ => false);
      ballPos, ballVec, ballRot, angularVec := ORIGIN, FORWARD, ORIGIN, None;
      panel1Pos, panel2Pos := Vec3(0.0, 0.0, 50.0), Vec3(0.0, 0.0, -50.0);
      state := Playing;
      this.session := session;
      player1Score, player2Score := session.leftScore.value, session.rightScore.value;
      effects := [];
    }

    /** init_game: puts the ball and the paddles back where a match starts. */
    method InitGame()
      requires Valid()
      modifies this`ballPos, this`ballVec, this`ballRot, this`panel1Pos, this`panel2Pos
      ensures Valid()
      ensures ballPos == ORIGIN && ballVec == FORWARD && ballRot == ORIGIN
      ensures panel1Pos == Vec3(0.0, 0.0, 50.0) && panel2Pos == Vec3(0.0, 0.0, -50.0)
    {
      ballPos, ballVec, ballRot := ORIGIN, FORWARD, ORIGIN;
      panel1Pos, panel2Pos := Vec3(0.0, 0.0, 50.0), Vec3(0.0, 0.0, -50.0);
    }

    /** process_key_input: writes one entry of the key state per mapped key of the frame. */
    method ProcessKeyInput(frame: map<string, bool>)
      requires Valid()
      modifies keyState
      ensures Valid()
      ensures keyState[..] == ApplyKeys(old(keyState[..]), frame)
    {
      KeyMappingIsBijective();
      var rest := frame.Keys;
      while rest != {}
        invariant rest <= frame.Keys
        invariant forall i :: 0 <= i < KEY_COUNT ==>
                    keyState[i] == if KeyAt(i) in frame && KeyAt(i) !in rest then frame[KeyAt(i)] else old(keyState[i])
        decreases rest
      {
        var k :| k in rest;
        if k in KEY_MAPPING {
          keyState[KEY_MAPPING[k]] := frame[k];
        }
        rest := rest - {k};
      }
      assert keyState[..] == ApplyKeys(old(keyState[..]), frame);
    }

    /** move_panels: each axis of each paddle moves by one clamped step in the direction of
        the first-checked held key. */
    method MovePanels()
      requires Valid()
      modifies this`panel1Pos, this`panel2Pos
      ensures Valid()
      ensures panel1Pos == MovedPanel1(old(panel1Pos), keyState[..])
      ensures panel2Pos == MovedPanel2(old(panel2Pos), keyState[..])
    {
      var ks := keyState[..];
      var p1, p2 := panel1Pos, panel2Pos;
      if ks[0] {
        p1 := p1.(y := ClampPanelPos(p1.y + PANEL_STEP));
      } else if ks[2] {
        p1 := p1.(y := ClampPanelPos(p1.y - PANEL_STEP));
      }
      if ks[1] {
        p1 := p1.(x := ClampPanelPos(p1.x - PANEL_STEP));
      } else if ks[3] {
        p1 := p1.(x := ClampPanelPos(p1.x + PANEL_STEP));
      }
      if ks[4] {
        p2 := p2.(y := ClampPanelPos(p2.y + PANEL_STEP));
      } else if ks[6] {
        p2 := p2.(y := ClampPanelPos(p2.y - PANEL_STEP));
      }
      if ks[5] {
        p2 := p2.(x := ClampPanelPos(p2.x + PANEL_STEP));
      } else if ks[7] {
        p2 := p2.(x := ClampPanelPos(p2.x - PANEL_STEP));
      }
      panel1Pos, panel2Pos := p1, p2;
    }

    /** reset_ball: position to the origin, direction forward; the spin `ball_rot` is kept
        because the method assigns `angular_vec` instead. */
    method ResetBall()
      modifies this`ballVec, this`angularVec, this`ballPos
      ensures ballPos == ORIGIN && ballVec == FORWARD && angularVec == Some(ORIGIN)
    {
      ballVec := FORWARD;
      angularVec := Some(ORIGIN);
      ballPos := ORIGIN;
    }

    /** The tail of update_match_result: the session is written back to the cache. */
    method UpdateMatchResult() returns (raised: Option<PyError>)
      requires Valid()
      modifies this`session, this`effects
      ensures Valid()
      ensures var o := RecordMatch(old(session), player1Score, player2Score);
              && session == o.session
              && (o.raised.Some? ==> raised == o.raised && effects == old(effects))
              && (o.raised.None? && session.userId.None? ==>
                    raised == Some(KeyError("user_id")) && effects == old(effects))
              && (o.raised.None? && session.userId.Some? ==>
                    raised.None? &&
                    effects == old(effects) + [CacheSet(SessionKey(TOURNAMENT, session.userId.value), session, SESSION_TTL)])
    {
      var o := RecordMatch(session, player1Score, player2Score);
      session := o.session;
      if o.raised.Some? {
        return o.raised;
      }
      if session.userId.None? {
        return Some(KeyError("user_id"));
      }
      effects := effects + [CacheSet(SessionKey(TOURNAMENT, session.userId.value), session, SESSION_TTL)];
      raised := None;
    }

    /** save_tournament_results: one Tournament row, one Game row per recorded match, then
        the tournament is saved. */
    method SaveTournamentResults() returns (raised: Option<PyError>)
      modifies this`effects
      ensures session.userId.None? ==> raised == Some(KeyError("user_id")) && effects == old(effects)
      ensures session.userId.Some? && session.matchResults.None? ==>
                raised == Some(KeyError("match_results")) &&
                effects == old(effects) + [TournamentCreated(session.userId.value)]
      ensures session.userId.Some? && session.matchResults.Some? ==>
                raised.None? &&
                effects == old(effects) + [TournamentCreated(session.userId.value)] +
                           TournamentGames(session.userId.value, session.matchResults.value) + [TournamentSaved]
    {
      if session.userId.None? {
        return Some(KeyError("user_id"));
      }
      var uid := session.userId.value;
      effects := effects + [TournamentCreated(uid)];
      if session.matchResults.None? {
        return Some(KeyError("match_results"));
      }
      var results := session.matchResults.value;
      ghost var before := effects;
      for i := 0 to |results|
        invariant effects == before + TournamentGames(uid, results[..i])
      {
        effects := effects + [GameCreated(TournamentGameRecord(uid, results[i]))];
        assert TournamentGames(uid, results[..i + 1]) ==
               TournamentGames(uid, results[..i]) + [GameCreated(TournamentGameRecord(uid, results[i]))];
      }
      assert results[..|results|] == results;
      effects := effects + [TournamentSaved];
      raised := None;
    }

    /** save_game_result: the 1-on-1 row of a normal match. */
    method SaveGameResult() returns (raised: Option<PyError>)
      modifies this`effects
      ensures match NormalGameRecord(session)
              case Done(rec) => raised.None? && effects == old(effects) + [GameCreated(rec)]
              case Raised(err) => raised == Some(err) && effects == old(effects)
    {
      match NormalGameRecord(session)
      case Done(rec) =>
        effects := effects + [GameCreated(rec)];
        raised := None;
      case Raised(err) =>
        raised := Some(err);
    }

    /** NormalPongGame.set_game_ended */
    method NormalSetGameEnded() returns (raised: Option<PyError>)
      requires Valid() && variant == Normal
      modifies this`state, this`effects
      ensures Valid()
      ensures var e := EndMatch(Normal, old(state), session, player1Score, player2Score);
              state == e.state && effects == old(effects) + e.effects && raised == e.raised
    {
      state := Ended;
      raised := SaveGameResult();
      if raised.Some? {
        return;
      }
      effects := effects + [CacheDelete(SessionKey(NORMAL, session.userId.value))];
      effects := effects + [Sent(GameEndEvent)];
    }

    /** TournamentPongGame.set_game_ended */
    method TournamentSetGameEnded() returns (raised: Option<PyError>)
      requires Valid() && variant == Tournament
      modifies this`state, this`session, this`effects
      ensures Valid()
      ensures var e := EndMatch(Tournament, old(state), old(session), player1Score, player2Score);
              state == e.state && session == e.session && effects == old(effects) + e.effects && raised == e.raised
    {
      raised := UpdateMatchResult();
      if raised.Some? {
        assert effects == old(effects) + [];
        return;
      }
      if session.currentMatch.value >= 3 {
        state := Ended;
        raised := SaveTournamentResults();
      }
      effects := effects + [Sent(GameEndEvent)];
    }

    /** set_game_ended, dispatched on the variant. */
    method SetGameEnded() returns (raised: Option<PyError>)
      requires Valid()
      modifies this`state, this`session, this`effects
      ensures Valid()
      ensures var e := EndMatch(variant, old(state), old(session), player1Score, player2Score);
              state == e.state && session == e.session && effects == old(effects) + e.effects && raised == e.raised
    {
      match variant
      case Normal => raised := NormalSetGameEnded();
      case Tournament => raised := TournamentSetGameEnded();
    }

    /** player_win: the ball is reset and the goal is scored as AfterGoal says. */
    method PlayerWin(side: Side) returns (raised: Option<PyError>)
      requires Valid()
      modifies this`ballVec, this`angularVec, this`ballPos, this`player1Score, this`player2Score,
               this`state, this`session, this`effects
      ensures Valid()
      ensures ballPos == ORIGIN && ballVec == FORWARD && angularVec == Some(ORIGIN)
      ensures var g := AfterGoal(variant, old(state), old(session), old(player1Score), old(player2Score), side);
              && player1Score == g.player1Score && player2Score == g.player2Score
              && state == g.state && session == g.session && raised == g.raised
              && effects == old(effects) + g.effects
    {
      ResetBall();
      var reached: bool;
      if side == Left {
        player1Score := player1Score + 1;
        session := session.(leftScore := Some(session.leftScore.value + 1));
        reached := player1Score >= GAME_END_SCORE;
      } else {
        player2Score := player2Score + 1;
        session := session.(rightScore := Some(session.rightScore.value + 1));
        reached := player2Score >= GAME_END_SCORE;
      }
      raised := None;
      if reached {
        raised := SetGameEnded();
        if raised.Some? {
          return;
        }
      }
      effects := effects + [Sent(ScoreEvent(player1Score, player2Score))];
    }

    /** update, with the ball physics left out: `goal` says which side, if any, scored during
        this tick, and `after` is the ball the tick's sub-steps leave behind (they go on moving
        the reset ball after a goal). A goal is scored as player_win does; an exception from
        it stops the tick with the ball just reset; otherwise the ball is `after` and the
        state is sent. */
    method Update(goal: Option<Side>, after: Ball) returns (raised: Option<PyError>)
      requires Valid()
      modifies this`ballVec, this`angularVec, this`ballPos, this`ballRot, this`player1Score, this`player2Score,
               this`state, this`session, this`effects
      ensures Valid()
      ensures ballRot == after.rot
      ensures raised.None? ==> ballPos == after.pos && ballVec == after.vec
      ensures goal.None? ==>
                && raised.None? && angularVec == old(angularVec) && player1Score == old(player1Score)
                && player2Score == old(player2Score) && state == old(state) && session == old(session)
                && effects == old(effects) + [Sent(StateEvent(after.pos, panel1Pos, panel2Pos, after.rot))]
      ensures goal.Some? ==>
                var g := AfterGoal(variant, old(state), old(session), old(player1Score), old(player2Score), goal.value);
                && angularVec == Some(ORIGIN)
                && player1Score == g.player1Score && player2Score == g.player2Score
                && state == g.state && session == g.session && raised == g.raised
                && (raised.Some? ==> ballPos == ORIGIN && ballVec == FORWARD)
                && effects == old(effects) + g.effects +
                              (if g.raised.None? then [Sent(StateEvent(after.pos, panel1Pos, panel2Pos, after.rot))] else [])
    {
      raised := None;
      ballRot := after.rot;
      if goal.Some? {
        raised := PlayerWin(goal.value);
        if raised.Some? {
          assert effects == old(effects) + AfterGoal(variant, old(state), old(session), old(player1Score), old(player2Score), goal.value).effects + [];
          return;
        }
      }
      ballPos, ballVec := after.pos, after.vec;
      effects := effects + [Sent(StateEvent(ballPos, panel1Pos, panel2Pos, ballRot))];
    }
  }

  /** A normal match's end leaves the game Ended whatever happens afterwards. */
  lemma NormalEndIsImmediate(st: MatchState, data: Session, score1: int, score2: int)
    ensures EndMatch(Normal, st, data, score1, score2).state == Ended
  {
  }
}
