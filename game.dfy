/**
 * The game state of netpong.c and the operations that change it: the
 * simulation step `tock`, `reset`, the state effects of the `countdown` and
 * `displayWinner` popups, the paddle keys of `listenInput` and the paddle
 * messages of `listenNetwork`.
 *
 * The globals of netpong.c become the fields of `GameState`; `Board` is the
 * value of those fields, and the functions over `Board` are what each method
 * does to it.  rand() is a parameter `rnd`: the value rand() returned.
 */
module Game {
  import opened Wrappers
  import opened Utils
  import opened Protocol

  const WIDTH: int := 43
  const HEIGHT: int := 21
  const PADLX: int := 1
  const PADRX: int := WIDTH - 2

  /** The ncurses codes getch returns for the arrow keys. */
  const KEY_DOWN: int := 0x102
  const KEY_UP: int := 0x103

  datatype Board = Board(
    ballX: int, ballY: int,   // position of the ball
    dx: int, dy: int,         // movement of the ball per tick
    padLY: int, padRY: int,   // vertical centres of the paddles
    scoreL: int, scoreR: int, // player scores
    roundNum: int)            // round number

  /** C's `%`, which truncates toward zero. */
  function CRem(a: int, m: int): (r: int)
    requires m > 0
    ensures a >= 0 ==> r == a % m
    ensures -m < r < m
  {
    if a >= 0 then a % m else -((-a) % m)
  }

  function Abs(a: int): int { if a < 0 then -a else a }

  /** -1, 0 or 1 as `a` is negative, zero or positive. */
  function Sign(a: int): int { if a < 0 then -1 else if a > 0 then 1 else 0 }

  // ---------------------------------------------------------------------------
  // What each operation does to the board

  /** reset(): ball and paddles to the centre, dx from rand(), dy zero. */
  function ResetBoard(b: Board, rnd: nat): Board
  {
    b.(ballX := WIDTH / 2, ballY := HEIGHT / 2, padLY := HEIGHT / 2, padRY := HEIGHT / 2,
       dx := (rnd % 2) * 2 - 1, dy := 0)
  }

  /** The state effect of countdown(): both paddles re-centred. */
  function CountdownBoard(b: Board): Board
  {
    b.(padLY := HEIGHT / 2, padRY := HEIGHT / 2)
  }

  /** The state effect of displayWinner(): scores cleared, round advanced, paddles re-centred. */
  function WinBoard(b: Board): Board
  {
    b.(scoreR := 0, scoreL := 0, roundNum := b.roundNum + CRem(b.roundNum + 1, 100),
       padLY := HEIGHT / 2, padRY := HEIGHT / 2)
  }

  /** The first step of tock(): the ball moves by (dx, dy). */
  function MoveBall(b: Board): Board
  {
    b.(ballX := b.ballX + b.dx, ballY := b.ballY + b.dy)
  }

  /** The paddle closest to the ball. */
  function NearPaddle(b: Board): int
  {
    if b.ballX < WIDTH / 2 then b.padLY else b.padRY
  }

  /** The column the ball must reach to hit the closest paddle. */
  function CollisionColumn(b: Board): int
  {
    if b.ballX < WIDTH / 2 then PADLX + 1 else PADRX - 1
  }

  predicate HitsPaddle(b: Board)
  {
    b.ballX == CollisionColumn(b) && Abs(b.ballY - NearPaddle(b)) <= 2
  }

  function BouncePaddle(b: Board): Board
  {
    if HitsPaddle(b) then b.(dx := -b.dx, dy := Sign(b.ballY - NearPaddle(b))) else b
  }

  function BounceWall(b: Board): Board
  {
    if b.ballY == 1 then b.(dy := 1)
    else if b.ballY == HEIGHT - 2 then b.(dy := -1)
    else b
  }

  /** The scoring step of tock(): a point, reset(), then displayWinner() or countdown(). */
  function ScorePoint(b: Board, rnd: nat): Board
  {
    if b.ballX == 0 then
      var s := ResetBoard(b.(scoreR := CRem(b.scoreR + 1, 100)), rnd);
      if s.scoreR == 2 then WinBoard(s) else CountdownBoard(s)
    else if b.ballX == WIDTH - 1 then
      var s := ResetBoard(b.(scoreL := CRem(b.scoreL + 1, 100)), rnd);
      if s.scoreL == 2 then WinBoard(s) else CountdownBoard(s)
    else b
  }

  /** tock(): move, paddle bounce, wall bounce, scoring. */
  function TockBoard(b: Board, rnd: nat): Board
  {
    ScorePoint(BounceWall(BouncePaddle(MoveBall(b))), rnd)
  }

  /** What main does before the game loop: reset() and countdown("Starting Game"). */
  function StartBoard(b: Board, rnd: nat): Board
  {
    CountdownBoard(ResetBoard(b, rnd))
  }

  /** The paddle change one key press makes in listenInput. */
  function KeyBoard(b: Board, key: int, isHost: bool): Board
  {
    if key == KEY_UP && isHost then b.(padRY := b.padRY - 1)
    else if key == KEY_DOWN && isHost then b.(padRY := b.padRY + 1)
    else if key == 'w' as int && !isHost then b.(padLY := b.padLY - 1)
    else if key == 's' as int && !isHost then b.(padLY := b.padLY + 1)
    else b
  }

  /** The lines listenInput writes to the peer after a key press. */
  function KeyLines(b: Board, key: int, isHost: bool): seq<seq<char>>
  {
    var n := KeyBoard(b, key, isHost);
    if (key == KEY_UP || key == KEY_DOWN) && isHost then [MessageLine(PadRight), PaddleLine(n.padRY)]
    else if (key == 'w' as int || key == 's' as int) && !isHost then [MessageLine(PadLeft), PaddleLine(n.padLY)]
    else []
  }

  /** What one pass of listenNetwork's loop does after reading a line. */
  datatype NetOutcome = Continue | Terminate | AwaitingPayload

  datatype Reception = Reception(board: Board, outcome: NetOutcome)

  /**
   * One message handled by listenNetwork: `message` is what fgets stored, and
   * `attempts` what the following reads store while a paddle value is awaited.
   */
  function PeerStep(b: Board, message: seq<char>, attempts: seq<seq<char>>): Reception
  {
    var kind := Classify(Line(message));
    if kind == Exit then Reception(b, Terminate)
    else if kind == PadLeft || kind == PadRight then
      match FirstFilled(attempts)
      case None => Reception(b, AwaitingPayload)
      case Some(i) =>
        var y := ReceivedValue(attempts[i]);
        Reception(if kind == PadLeft then b.(padLY := y) else b.(padRY := y), Continue)
    else Reception(b, Continue)
  }

  // ---------------------------------------------------------------------------
  // The shared game state

  class GameState {
    var ballX: int
    var ballY: int
    var dx: int
    var dy: int
    var padLY: int
    var padRY: int
    var scoreL: int
    var scoreR: int
    var roundNum: int

    function State(): Board
      reads this
    {
      Board(ballX, ballY, dx, dy, padLY, padRY, scoreL, scoreR, roundNum)
    }

    /** The globals as the program starts: all zero. */
    constructor ()
      ensures State() == Board(0, 0, 0, 0, 0, 0, 0, 0, 0)
    {
      ballX, ballY, dx, dy := 0, 0, 0, 0;
      padLY, padRY, scoreL, scoreR, roundNum := 0, 0, 0, 0, 0;
    }

    method Reset(rnd: nat)
      modifies this
      ensures State() == ResetBoard(old(State()), rnd)
    {
      ballX := WIDTH / 2;
      ballY := HEIGHT / 2;
      padLY, padRY := ballY, ballY;
      dx := (rnd % 2) * 2 - 1;
      dy := 0;
    }

    method Countdown()
      modifies this
      ensures State() == CountdownBoard(old(State()))
    {
      padLY, padRY := HEIGHT / 2, HEIGHT / 2;
    }

    method DisplayWinner()
      modifies this
      ensures State() == WinBoard(old(State()))
    {
      scoreR := 0;
      scoreL := 0;
      roundNum := roundNum + CRem(roundNum + 1, 100);
      padLY, padRY := HEIGHT / 2, HEIGHT / 2;
    }

    method Tock(rnd: nat)
      modifies this
      ensures State() == TockBoard(old(State()), rnd)

    {
      ghost var b := State();
      ballX := ballX + dx;
      ballY := ballY + dy;
      assert State() == MoveBall(b);
      var padY := if ballX < WIDTH / 2 then padLY else padRY;
      var colX := if ballX < WIDTH / 2 then PADLX + 1 else PADRX - 1;
      if ballX == colX && Abs(ballY - padY) <= 2 {
        dx := dx * -1;
        if ballY < padY {
          dy := -1;
        } else if ballY > padY {
          dy := 1;
        } else {
          dy := 0;
        }
      }
      assert State() == BouncePaddle(MoveBall(b));
      if ballY == 1 {
        dy := 1;
      } else if ballY == HEIGHT - 2 {
        dy := -1;
      }
      ghost var w := State();
      assert w == BounceWall(BouncePaddle(MoveBall(b)));
      if ballX == 0 {
        scoreR := CRem(scoreR + 1, 100);
        Reset(rnd);
        ghost var s := State();
        assert s == ResetBoard(w.(scoreR := CRem(w.scoreR + 1, 100)), rnd);
        if scoreR == 2 {
          DisplayWinner();
        } else {
          Countdown();
        }
        assert State() == ScorePoint(w, rnd);
      } else if ballX == WIDTH - 1 {
        scoreL := CRem(scoreL + 1, 100);
        Reset(rnd);
        ghost var s := State();
        assert s == ResetBoard(w.(scoreL := CRem(w.scoreL + 1, 100)), rnd);
        if scoreL == 2 {
          DisplayWinner();
        } else {
          Countdown();
        }
        assert State() == ScorePoint(w, rnd);
      }

    }

    /** main: reset() and countdown("Starting Game") before the game loop. */
    method Start(rnd: nat)
      modifies this
      ensures State() == StartBoard(old(State()), rnd)
    {
      Reset(rnd);
      Countdown();
    }

    /** One key press handled by listenInput; `sent` is what it writes to the peer. */
    method PressKey(key: int, isHost: bool) returns (sent: seq<seq<char>>)
      modifies this
      ensures State() == KeyBoard(old(State()), key, isHost)
      ensures sent == KeyLines(old(State()), key, isHost)
    {
      sent := [];
      if key == KEY_UP {
        if isHost {
          padRY := padRY - 1;
          sent := [MessageLine(PadRight), PaddleLine(padRY)];
        }
      } else if key == KEY_DOWN {
        if isHost {
          padRY := padRY + 1;
          sent := [MessageLine(PadRight), PaddleLine(padRY)];
        }
      } else if key == 'w' as int {
        if !isHost {
          padLY := padLY - 1;
          sent := [MessageLine(PadLeft), PaddleLine(padLY)];
        }
      } else if key == 's' as int {
        if !isHost {
          padLY := padLY + 1;
          sent := [MessageLine(PadLeft), PaddleLine(padLY)];
        }
      }
    }

    /** One message handled by listenNetwork, the way PeerStep describes. */
    method ReceiveLine(message: seq<char>, attempts: seq<seq<char>>) returns (outcome: NetOutcome)
      modifies this
      ensures State() == PeerStep(old(State()), message, attempts).board
      ensures outcome == PeerStep(old(State()), message, attempts).outcome
    {
      var kind := Classify(Line(message));
      if kind == Exit {
        return Terminate;
      }
      if kind == PadLeft || kind == PadRight {
        var first := AwaitPayload(attempts);
        if first.None? {
          return AwaitingPayload;
        }
        var raw := attempts[first.value];
        var buf := new char[|raw| + 1](i requires 0 <= i < |raw| + 1 => if i < |raw| then raw[i] else NUL);
        assert buf[..] == raw + [NUL];
        RStrip(buf);
        var y := Atoi(CStr(buf[..]));
        if kind == PadLeft {
          padLY := y;
        } else {
          padRY := y;
        }
      }
      return Continue;
    }
  }

  // ---------------------------------------------------------------------------
  // Properties

  /**
   * The board during play: the ball inside the field, moving one column per
   * tick and at most one row per tick, never moving into a wall, and neither
   * score at 2 (a score of 2 ends the round at once).
   */
  predicate InPlay(b: Board)
  {
    && 1 <= b.ballX <= WIDTH - 2
    && 1 <= b.ballY <= HEIGHT - 2
    && (b.dx == -1 || b.dx == 1)
    && -1 <= b.dy <= 1
    && (b.ballY == 1 ==> b.dy >= 0)
    && (b.ballY == HEIGHT - 2 ==> b.dy <= 0)
    && 0 <= b.scoreL <= 1 && 0 <= b.scoreR <= 1
    && b.roundNum >= 0
  }

  /** reset leaves the ball at (21, 10), both paddles at 10, dx in {-1, 1}, dy = 0 and the scores alone. */
  lemma ResetCentres(b: Board, rnd: nat)
    ensures var r := ResetBoard(b, rnd);
      && r.ballX == 21 && r.ballY == 10 && r.padLY == 10 && r.padRY == 10
      && (r.dx == -1 || r.dx == 1) && r.dy == 0
      && r.scoreL == b.scoreL && r.scoreR == b.scoreR && r.roundNum == b.roundNum
    ensures ResetBoard(b, 0).dx == -1 && ResetBoard(b, 1).dx == 1
  {
  }

  /** countdown changes only the paddles, which it sets to HEIGHT / 2. */
  lemma CountdownOnlyPaddles(b: Board)
    ensures var c := CountdownBoard(b);
      c.padLY == HEIGHT / 2 && c.padRY == HEIGHT / 2 &&
      c.(padLY := b.padLY, padRY := b.padRY) == b
  {
  }

  /** Move step: without a score the ball ends one step of (dx, dy) further; after a score it is back at the centre. */
  lemma TockMovesBall(b: Board, rnd: nat)
    ensures var x1, t := b.ballX + b.dx, TockBoard(b, rnd);
      if x1 != 0 && x1 != WIDTH - 1 then
        t.ballX == x1 && t.ballY == b.ballY + b.dy && t.padLY == b.padLY && t.padRY == b.padRY
      else
        t.ballX == WIDTH / 2 && t.ballY == HEIGHT / 2 && t.dy == 0
  {
  }

  /**
   * Paddle and wall bounces of a tick without a score: dx is negated exactly
   * when the moved ball is on the near paddle's collision column (2 on the left
   * half, 40 on the right) within 2 rows of its centre; dy is forced by a wall
   * row, else set to the side of the paddle centre the ball hit, else kept.
   */
  lemma TockBounces(b: Board, rnd: nat)
    requires b.ballX + b.dx != 0 && b.ballX + b.dx != WIDTH - 1
    ensures var x1, y1, t := b.ballX + b.dx, b.ballY + b.dy, TockBoard(b, rnd);
      var padY := if x1 < 21 then b.padLY else b.padRY;
      var colX := if x1 < 21 then 2 else 40;
      var hit := x1 == colX && -2 <= y1 - padY <= 2;
      && t.dx == (if hit then -b.dx else b.dx)
      && t.dy == (if y1 == 1 then 1 else if y1 == HEIGHT - 2 then -1
                  else if hit then Sign(y1 - padY) else b.dy)
  {
  }

  /** Scoring on the left edge: the right player scores, and either the point or the round is settled. */
  lemma TockRightScores(b: Board, rnd: nat)
    requires b.ballX + b.dx == 0
    ensures var s, t := CRem(b.scoreR + 1, 100), TockBoard(b, rnd);
      && t.ballX == 21 && t.ballY == 10 && t.padLY == 10 && t.padRY == 10 && t.dy == 0
      && t.dx == (rnd % 2) * 2 - 1
      && (s == 2 ==> t.scoreR == 0 && t.scoreL == 0 && t.roundNum == b.roundNum + CRem(b.roundNum + 1, 100))
      && (s != 2 ==> t.scoreR == s && t.scoreL == b.scoreL && t.roundNum == b.roundNum)
  {
  }

  /** Scoring on the right edge: the left player scores, symmetrically. */
  lemma TockLeftScores(b: Board, rnd: nat)
    requires b.ballX + b.dx == WIDTH - 1
    ensures var s, t := CRem(b.scoreL + 1, 100), TockBoard(b, rnd);
      && t.ballX == 21 && t.ballY == 10 && t.padLY == 10 && t.padRY == 10 && t.dy == 0
      && t.dx == (rnd % 2) * 2 - 1
      && (s == 2 ==> t.scoreR == 0 && t.scoreL == 0 && t.roundNum == b.roundNum + CRem(b.roundNum + 1, 100))
      && (s != 2 ==> t.scoreL == s && t.scoreR == b.scoreR && t.roundNum == b.roundNum)
  {
  }

  /** Without a ball on an edge column, scores and round are untouched. */
  lemma TockNoScore(b: Board, rnd: nat)
    requires b.ballX + b.dx != 0 && b.ballX + b.dx != WIDTH - 1
    ensures var t := TockBoard(b, rnd);
      t.scoreL == b.scoreL && t.scoreR == b.scoreR && t.roundNum == b.roundNum
  {
  }

  /**
   * The ball at (1, 11) moving left past a left paddle centred on row 11 does
   * not collide (the collision column is 2) and scores for the right player.
   */
  lemma MissPastLeftPaddle(rnd: nat)
    ensures var t := TockBoard(Board(1, 11, -1, 0, 11, 11, 0, 0, 0), rnd);
      t.scoreR == 1 && t.scoreL == 0 && t.ballX == 21 && t.ballY == 10 && t.roundNum == 0
  {
  }

  /** The round number advances by (roundNum + 1) % 100, not to (roundNum + 1) % 100: round 1 is followed by round 3. */
  lemma RoundAdvance(b: Board)
    requires b.roundNum >= 0
    ensures WinBoard(b).roundNum == b.roundNum + (b.roundNum + 1) % 100
    ensures b.roundNum == 1 ==> WinBoard(b).roundNum == 3
  {
  }

  /** A tick keeps the board in play; in particular neither score can stay at 2, so 2-2 never happens. */
  lemma TockPreservesInPlay(b: Board, rnd: nat)
    requires InPlay(b)
    ensures InPlay(TockBoard(b, rnd))
  {
  }

  /** The start of a session (reset then countdown from the zeroed globals) is in play. */
  lemma StartInPlay(rnd: nat)
    ensures InPlay(StartBoard(Board(0, 0, 0, 0, 0, 0, 0, 0, 0), rnd))
  {
  }

  /**
   * Keys: for the host only, KEY_UP / KEY_DOWN move the right paddle by -1 / +1;
   * for the challenger only, 'w' / 's' move the left paddle by -1 / +1; every
   * other key and role leaves the board as it is and sends nothing.
   */
  lemma KeyEffect(b: Board, key: int, isHost: bool)
    ensures var n := KeyBoard(b, key, isHost);
      && n.(padLY := b.padLY, padRY := b.padRY) == b
      && n.padRY == b.padRY + (if isHost && key == KEY_UP then -1 else if isHost && key == KEY_DOWN then 1 else 0)
      && n.padLY == b.padLY + (if !isHost && key == 'w' as int then -1 else if !isHost && key == 's' as int then 1 else 0)
      && (KeyLines(b, key, isHost) == [] <==> n == b)
  {
  }

  /**
   * Paddle moves from either side keep the board in play. The paddles are
   * unbounded in netpong.c: neither the key handlers nor the message handlers
   * clamp them, so InPlay says nothing about them, and a paddle pushed past the
   * field simply stops colliding.
   */
  lemma PaddleChangesKeepInPlay(b: Board, key: int, isHost: bool, message: seq<char>, attempts: seq<seq<char>>)
    requires InPlay(b)
    ensures InPlay(KeyBoard(b, key, isHost))
    ensures InPlay(PeerStep(b, message, attempts).board)
  {
  }

  /**
   * Paddle round-trip: the two lines a key press sends, read by the peer's
   * listenNetwork, give the peer's copy of that paddle the sender's new value
   * and change nothing else.
   */
  lemma PaddleSync(b: Board, peer: Board, key: int, isHost: bool)
    requires KeyLines(b, key, isHost) != []
    ensures var sent, n := KeyLines(b, key, isHost), KeyBoard(b, key, isHost);
      var r := PeerStep(peer, sent[0], sent[1..]);
      && r.outcome == Continue
      && r.board == (if isHost then peer.(padRY := n.padRY) else peer.(padLY := n.padLY))
  {
    var sent, n := KeyLines(b, key, isHost), KeyBoard(b, key, isHost);
    var y := if isHost then n.padRY else n.padLY;
    var kind := if isHost then PadRight else PadLeft;
    assert sent == [MessageLine(kind), PaddleLine(y)];
    LineOfText(MessageLine(kind));
    assert Classify(Line(sent[0])) == kind;
    assert PaddleLine(y)[0] != NUL by { if y < 0 {} else { assert PaddleLine(y)[0] == Digits(y)[0]; } }
    assert FirstFilled(sent[1..]) == Some(0);
    PaddleLineRoundTrip(y);
    assert ReceivedValue(sent[1..][0]) == y;
  }

  /** EXIT ends the session and unknown or stub messages are ignored; neither changes the board. */
  lemma PeerOtherMessages(b: Board, message: seq<char>, attempts: seq<seq<char>>)
    requires Classify(Line(message)) != PadLeft && Classify(Line(message)) != PadRight
    ensures PeerStep(b, message, attempts).board == b
    ensures PeerStep(b, message, attempts).outcome == (if Classify(Line(message)) == Exit then Terminate else Continue)
  {
  }
}
