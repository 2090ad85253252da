# netpong: game state, protocol and C-string helpers in Dafny

This project models the sequential core of a two-player terminal Pong game
played over TCP between a *host* (right paddle, picks the difficulty) and a
*challenger* (left paddle). The model covers:

- the game state of `netpong.c`. Its globals `ballX`, `ballY`, `dx`, `dy`,
  `padLY`, `padRY`, `scoreL`, `scoreR` and `roundNum` are the fields of the class
  `Game.GameState`. Its methods `Tock`, `Reset`, `Countdown`, `DisplayWinner`,
  `Start`, `PressKey` and `ReceiveLine` change those fields step by step, the
  way the C functions do. Each method's contract ties the new state to a
  function over the value type `Game.Board`. The lemmas about those functions
  state the game rules: the move step, paddle and wall bounces, scoring, the
  win branch, the keys, and the invariant `InPlay`.
- the wire protocol (`Protocol`): the paddle value written with
  `sprintf("%d\n")` and read back by the peer through `fgets`, `rstrip` and
  `atoi`; the recognition of `EXIT`, `PAD_L`, `PAD_R` and the stub messages;
  the retry loop that waits for a non-empty follow-up line.
- the session arithmetic of `main` (`Session`): the difficulty-to-refresh
  mapping; the difficulty line sent by the host and read back by the
  challenger; the unsigned-subtraction sleep clamp.
- the helpers of `netpong_final/utils.c` (`Utils`). `rstrip` and `rstrip_c`
  are in-place loops over an `array<char>`, where `strlen` is the index of the
  first NUL. `string_in_string_array` is a bounded linear search over an array
  of nullable strings; it returns 0 when the string is found and 1 when it is
  not.

`rand()` in `reset` is a parameter `rnd`: the value `rand()` returned. So
`dx = (rnd % 2) * 2 - 1`, which is -1 or 1, and both occur. C's truncating `%`
is written out as `Game.CRem`. The round update follows the code:
`roundNum += (roundNum + 1) % 100`, so round 1 is followed by round 3
(`Game.RoundAdvance`). It is not "increment modulo 100". Array bounds checking
shows that `rstrip`'s index never goes below 0, so nothing is written before
`s[0]`.

The model follows the code literally, also where it may look unintended:
- The round number is advanced as above, not modulo 100.
- The host does not reject an unknown difficulty. It leaves `refresh` unset
  (`RefreshFor` gives `None`); only the challenger rejects it.
- The board lock is held through the popups. Locking itself is not modelled.

## Model

| member | source | states |
|---|---|---|
| `Utils.Strlen` | netpong_final/utils.c:16-20 | strlen is the index of the first NUL: no NUL before it, a NUL at it (or the end of the buffer) |
| `Utils.StripEnd` | netpong_final/utils.c:20-24 | removing the maximal trailing run of `c`: the result is a prefix, does not end in `c`, and only `c` was removed |
| `Utils.RStripFrame` | netpong_final/utils.c:20-24 | rstrip_c overwrites exactly the maximal trailing run of `c` before strlen with NUL; characters before the run and bytes at or after the old strlen are unchanged; the buffer length is kept |
| `Utils.RStripResult` | netpong_final/utils.c:20-24 | afterwards the C string is the old one without its trailing run of `c`, so it does not end in `c`; the new strlen is the cut point |
| `Utils.RStripIdempotent` | netpong_final/utils.c:20-24 | applying rstrip_c twice gives the same buffer as applying it once |
| `Utils.RStripEmpty` | netpong_final/utils.c:16-18 | a buffer holding the empty string is left untouched |
| `Utils.RStripAllMatching` | netpong_final/utils.c:21-24 | a string made only of `c` becomes empty, and the cut stops at index 0 |
| `Utils.RStrip` | netpong_final/utils.c:15-25 | a null pointer is left alone; otherwise the buffer becomes `RStripped(old, '\n')`: its trailing newlines are overwritten with NUL |
| `Utils.RStripC` | netpong_final/utils.c:27-37 | the same as RStrip for an arbitrary character `c`; with `c = '\n'` the two contracts coincide |
| `Utils.ScanEnd` | netpong_final/utils.c:40-41 | the search stops at the first index at or past `size` or holding NULL; every entry before it is a non-NULL string |
| `Utils.StringInStringArray` | netpong_final/utils.c:39-48 | returns 0 or 1; 0 exactly when some entry before the first NULL and below `size` is string-equal to `s`; entries past that point play no part |
| `Protocol.AtoiDecimal` | netpong.c:454 | atoi reads back every integer that `%d` prints, negative ones included |
| `Protocol.PaddleLineRoundTrip` | netpong.c:448-461 | a paddle value sent as `"%d\n"` and read by the peer with rstrip then atoi is the value sent |
| `Protocol.ClassifyMessageLine` | netpong.c:441-468 | the `streq` chain recognises each message's line as that message and nothing else: both directions |
| `Protocol.FirstFilled` | netpong.c:450-452 | the read that ends the retry loop is the first one that leaves a non-empty string; None when none of the reads does |
| `Protocol.AwaitPayload` | netpong.c:449-452 | the do/while loop that re-reads until the line is non-empty stops at the first such read |
| `Game.GameState.constructor` | netpong.c:35-39 | the globals start at zero |
| `Game.GameState.Reset` | netpong.c:89-97 | the new state is `ResetBoard(old, rnd)` |
| `Game.GameState.Countdown` | netpong.c:118 | the new state is `CountdownBoard(old)`: only the paddles change |
| `Game.GameState.DisplayWinner` | netpong.c:144-147 | the new state is `WinBoard(old)`: scores zero, round advanced by `(roundNum+1) % 100`, paddles re-centred |
| `Game.GameState.Tock` | netpong.c:156-219 | the new state is `TockBoard(old, rnd)`: move, paddle bounce, wall bounce, scoring |
| `Game.GameState.Start` | netpong.c:574-575 | main's reset and countdown before the loop give `StartBoard(old, rnd)` |
| `Game.GameState.PressKey` | netpong.c:367-416 | a key press changes the state as `KeyBoard` says and sends the lines `KeyLines` names |
| `Game.GameState.ReceiveLine` | netpong.c:441-470 | one received message changes the state and ends the pass as `PeerStep` says; the payload goes through the RStrip method and atoi |
| `Game.ResetCentres` | netpong.c:89-94 | reset puts the ball at (21, 10) and both paddles at 10, sets dy = 0 and dx to -1 or 1 (both possible), and keeps scores and round |
| `Game.CountdownOnlyPaddles` | netpong.c:118 | countdown sets both paddles to HEIGHT/2 and changes nothing else |
| `Game.TockMovesBall` | netpong.c:157-159 | without a score the ball ends exactly (dx, dy) further and the paddles are kept; after a score the ball is back at the centre |
| `Game.TockBounces` | netpong.c:163-186 | near paddle and collision column chosen by `ballX < 21` (left: column 2, right: column 40); dx is negated iff the ball is on that column within 2 rows of the paddle centre; dy is forced by the wall rows 1 and 19, else becomes the sign of `ballY - padY` on a hit, else is kept |
| `Game.TockRightScores` | netpong.c:189-202 | reaching x = 0 scores `(scoreR+1) % 100` for the right player and resets the ball; a new score of 2 zeroes both scores and advances the round, any other keeps scoreL and the round |
| `Game.TockLeftScores` | netpong.c:203-216 | reaching x = 42 does the same for the left player |
| `Game.TockNoScore` | netpong.c:189-216 | any other x leaves both scores and the round unchanged |
| `Game.MissPastLeftPaddle` | netpong.c:163-191 | the ball at (1, 11) moving left with the left paddle at 11 passes the paddle (collision column 2) and scores for the right player |
| `Game.RoundAdvance` | netpong.c:146 | the win adds `(roundNum+1) % 100` to the round; from round 1 the next is 3 |
| `Game.TockPreservesInPlay` | netpong.c:156-216 | a tick keeps the ball inside the field and off the walls' outside, dx in {-1,1}, dy in {-1,0,1}, and both scores in {0,1}, so the score is never 2-2 |
| `Game.StartInPlay` | netpong.c:574-575 | the state main starts the loop with satisfies that invariant |
| `Game.KeyEffect` | netpong.c:367-416 | for the host only, KEY_UP and KEY_DOWN move the right paddle by -1 and +1; for the challenger only, 'w' and 's' move the left paddle by -1 and +1; every other key or role changes nothing and sends nothing |
| `Game.PaddleChangesKeepInPlay` | netpong.c:367-416 | key presses and peer paddle messages keep the play invariant |
| `Game.PaddleSync` | netpong.c:448-461 | the two lines a key press sends, handled by the peer, set the peer's copy of that paddle to the sender's new value and change nothing else |
| `Game.PeerOtherMessages` | netpong.c:441-470 | EXIT ends the session; the stub and unknown messages are ignored; neither changes the state |
| `Session.RefreshFor` | netpong.c:557-563 | the difficulty mapping (the host's copy is netpong.c:508-510): a name is accepted exactly when it is "easy", "medium" or "hard", and then gives a positive interval |
| `Session.RefreshChoices` | netpong.c:557-563 | "easy" maps to 80000, "medium" to 40000 and "hard" to 20000 microseconds; no other name is accepted |
| `Session.HandshakeAgrees` | netpong.c:553-563 | the difficulty line the host sends, read by the challenger with fgets and rstrip, yields the host's interval; it is rejected exactly when the host has none |
| `Session.Elapsed` | netpong.c:589-595 | `after - before` in unsigned long is the true difference when the clock did not go back |
| `Session.SleepTime` | netpong.c:594-598 | toSleep is never more than refresh; it is `refresh - elapsed` when elapsed is at most refresh, and `refresh` otherwise, in 64-bit unsigned arithmetic |
| `Session.SleepForInterval` | netpong.c:594-598 | for a negotiated interval and a clock that did not go back, the sleep is the rest of the interval, or the whole interval after a long tick |

## Left out

- Terminal rendering (`draw`, `initNcurses`, the popup windows of `countdown` and `displayWinner`, their `sleep(1)` loops): terminal I/O. Only the popups' state effects are kept, and their message parameters are dropped.
- Socket set-up (`open_socket_server`, `accept_client`, `open_socket_client`) and the CHALLENGE EXTENDED / CHALLENGE ACCEPTED exchange in `main`: network plumbing. Only the difficulty line is modelled.
- Threads, the board mutex, the SIGINT `handler` and the non-blocking `fcntl`/`usleep` polling of `listenNetwork`: concurrency and OS interaction. Each `while (1)` loop of `listenInput`, `listenNetwork` and `main` is modelled as one pass per method call.
- `gettimeofday` and `usleep`: the clock readings are the parameters `before` and `after`. The conversion of `toSleep` to usleep's argument type is not modelled.
- `rand()`: replaced by the parameter `rnd`.
- The debug file and the `printf` of the BALL, SCORE_L and SCORE_R stubs: output only. These messages are modelled as ignored.
- Game.GameState.Tock: the method's contract does not repeat the play invariant; `Game.TockPreservesInPlay` states it for `TockBoard`, which the method's contract equals.
- Game.GameState.ReceiveLine and Game.PaddleSync treat the message line and the payload lines as one ordered line stream. In netpong.c the message line is read through a second `FILE*` over a duplicated descriptor (netpong.c:422-426, 435), and the payload through `client_file` (netpong.c:451, 458). These are two separate stdio buffers over one socket. If "PAD_L\n7\n" arrives in one read, the first buffer can keep "7\n", and the payload loop then waits on the other stream. The model does not capture this read-ahead, so PaddleSync holds only when each line reaches the stream it is read from.
- Protocol.AwaitPayload: the C loop re-reads forever while the line stays empty. The model takes a finite list of reads; when none of them is non-empty, `ReceiveLine` reports `AwaitingPayload` and leaves the state unchanged.
- 32-bit `int` overflow: game integers are unbounded. Under the play invariant, ball and scores stay small. The paddles and the round number would overflow only after more than 2^31 key presses or about 2^31/99 rounds.
- `fgets` truncation at BUFSIZ, and the 10-byte `difficulty` buffer that `scanf("%s")` can overflow: buffer sizes are not modelled.
- `strcmp`, `strlen`, `atoi` and `sprintf` are C library code, written as the functions `CStr` equality, `Strlen`, `Atoi` and `Decimal`. `Atoi` does not model overflow of values outside the int range.
- `pong_cpp/netpong.cpp` and `pong/pong-game.cpp` have only empty `main` functions. `netpong_final/utils.h` holds only declarations.
