/**
 * The session set-up and timing arithmetic of netpong.c's main: the
 * difficulty-to-refresh mapping, the difficulty line the host sends and the
 * challenger reads back, and the sleep clamp of the game loop.
 */
module Session {
  import opened Wrappers
  import opened Utils

  /** C `int`. */
  type int32 = x: int | -0x8000_0000 <= x < 0x8000_0000

  const U64: int := 0x1_0000_0000_0000_0000

  /** C `unsigned long` (64 bits). */
  type uint64 = x: int | 0 <= x < U64

  /**
   * The refresh interval in microseconds for a difficulty name; None when the
   * name is none of the three (the host then leaves `refresh` unset, the
   * challenger rejects the session).
   */
  function RefreshFor(difficulty: seq<char>): (r: Option<int32>)
    ensures r.Some? <==> difficulty in {"easy", "medium", "hard"}
    ensures r.Some? ==> r.value > 0
  {
    if difficulty == "easy" then Some(80000)
    else if difficulty == "medium" then Some(40000)
    else if difficulty == "hard" then Some(20000)
    else None
  }

  /** Exactly the three names are accepted: easy is 80, medium 40 and hard 20 milliseconds. */
  lemma RefreshChoices(difficulty: seq<char>)
    ensures RefreshFor("easy") == Some(80000) && RefreshFor("medium") == Some(40000) && RefreshFor("hard") == Some(20000)
    ensures RefreshFor(difficulty).Some? <==> difficulty in {"easy", "medium", "hard"}
    ensures RefreshFor(difficulty).Some? ==> RefreshFor(difficulty).value in {20000, 40000, 80000}
  {
  }

  /** What the host sends after CHALLENGE ACCEPTED: the difficulty followed by a newline. */
  function DifficultyLine(difficulty: seq<char>): seq<char>
  {
    difficulty + "\n"
  }

  /** The challenger: fgets into a zeroed buffer, rstrip, then the difficulty mapping. */
  function ChallengerRefresh(raw: seq<char>): Option<int32>
  {
    RefreshFor(CStr(RStripped(raw + [NUL], '\n')))
  }

  /**
   * Handshake agreement: for a word the host's scanf("%s") can read (no NUL, no
   * trailing newline) the challenger reaches the host's refresh interval, and
   * rejects exactly the words the host has no interval for.
   */
  lemma HandshakeAgrees(difficulty: seq<char>)
    requires NUL !in difficulty
    requires difficulty == [] || difficulty[|difficulty| - 1] != '\n'
    ensures ChallengerRefresh(DifficultyLine(difficulty)) == RefreshFor(difficulty)
  {
    var line := DifficultyLine(difficulty);
    var buf := line + [NUL];
    StrlenAt(buf, |line|);
    assert CStr(buf) == line;
    StripEndAt(line, '\n', |difficulty|);
    RStripResult(buf, '\n');
    assert CStr(RStripped(buf, '\n')) == line[..|difficulty|] == difficulty;
  }

  /** `after - before` in unsigned long arithmetic. */
  function Elapsed(before: uint64, after: uint64): (e: uint64)
    ensures before <= after ==> e == after - before
  {
    (after - before) % U64
  }

  /**
   * `toSleep = refresh - (after - before)` in unsigned long arithmetic, clamped
   * to `refresh` when it wrapped around: never more than the interval, the rest
   * of the interval when the tick took less, the whole interval otherwise.
   */
  function SleepTime(refresh: int32, before: uint64, after: uint64): (toSleep: uint64)
    ensures toSleep <= refresh % U64
    ensures Elapsed(before, after) <= refresh % U64 ==> toSleep == refresh % U64 - Elapsed(before, after)
    ensures Elapsed(before, after) > refresh % U64 ==> toSleep == refresh % U64
  {
    var r: uint64 := refresh % U64;
    var t: uint64 := (r - Elapsed(before, after)) % U64;
    if t > r then r else t
  }

  /** With a negotiated interval and a clock that did not go back: the rest of the interval when the tick was shorter, else the whole interval. */
  lemma SleepForInterval(difficulty: seq<char>, before: uint64, after: uint64)
    requires RefreshFor(difficulty).Some?
    requires before <= after
    ensures var refresh := RefreshFor(difficulty).value;
      SleepTime(refresh, before, after) == if after - before <= refresh then refresh - (after - before) else refresh
  {
  }
}
