/**
 * The line-oriented peer protocol of netpong.c: paddle positions written with
 * `sprintf("%d\n")` and read back with `fgets`, `rstrip` and `atoi`, and the
 * recognition of the message lines `listenNetwork` dispatches on.
 */
module Protocol {
  import opened Wrappers
  import opened Utils

  predicate IsDigit(ch: char) { '0' <= ch <= '9' }

  function DigitChar(d: int): (ch: char)
    requires 0 <= d < 10
    ensures IsDigit(ch) && ch as int - '0' as int == d
  {
    ('0' as int + d) as char
  }

  /** The decimal digits of `n`, most significant first. */
  function Digits(n: nat): (s: seq<char>)
    ensures |s| >= 1
    ensures forall k :: 0 <= k < |s| ==> IsDigit(s[k])
  {
    if n < 10 then [DigitChar(n)] else Digits(n / 10) + [DigitChar(n % 10)]
  }

  /** What `sprintf(buf, "%d", n)` writes. */
  function Decimal(n: int): seq<char>
  {
    if n < 0 then ['-'] + Digits(-n) else Digits(n)
  }

  /** The line a paddle position is sent as: `sprintf(new_y, "%d\n", y)`. */
  function PaddleLine(y: int): seq<char>
  {
    Decimal(y) + "\n"
  }

  /** The longest prefix of `s` made of decimal digits. */
  function LeadingDigits(s: seq<char>): (d: seq<char>)
    ensures d <= s
    ensures forall k :: 0 <= k < |d| ==> IsDigit(d[k])
    ensures |d| < |s| ==> !IsDigit(s[|d|])
  {
    if s != [] && IsDigit(s[0]) then [s[0]] + LeadingDigits(s[1..]) else []
  }

  /** The value of a run of digits, accumulated left to right as atoi does. */
  function DigitsValue(s: seq<char>): int
    requires forall k :: 0 <= k < |s| ==> IsDigit(s[k])
  {
    if s == [] then 0 else 10 * DigitsValue(s[..|s| - 1]) + (s[|s| - 1] as int - '0' as int)
  }

  /** The white-space characters atoi skips (isspace in the C locale). */
  predicate IsSpace(ch: char) { ch == ' ' || 9 <= ch as int <= 13 }

  function SkipSpace(s: seq<char>): seq<char>
  {
    if s != [] && IsSpace(s[0]) then SkipSpace(s[1..]) else s
  }

  /** atoi: leading white space, an optional sign, then as many digits as follow. */
  function Atoi(s: seq<char>): int
  {
    var t := SkipSpace(s);
    if t != [] && t[0] == '-' then -DigitsValue(LeadingDigits(t[1..]))
    else if t != [] && t[0] == '+' then DigitsValue(LeadingDigits(t[1..]))
    else DigitsValue(LeadingDigits(t))
  }

  lemma {:induction false} DigitsValueOfDigits(n: nat)
    ensures DigitsValue(Digits(n)) == n
  {
    if n >= 10 {
      var s := Digits(n);
      assert s[..|s| - 1] == Digits(n / 10);
      DigitsValueOfDigits(n / 10);
    }
  }

  lemma LeadingDigitsOfDigits(s: seq<char>)
    requires forall k :: 0 <= k < |s| ==> IsDigit(s[k])
    ensures LeadingDigits(s) == s
  {
  }

  /** atoi reads back exactly the number `%d` printed. */
  lemma AtoiDecimal(n: int)
    ensures Atoi(Decimal(n)) == n
  {
    var d := Decimal(n);
    var m := if n < 0 then -n else n;
    assert !IsSpace(d[0]);
    assert SkipSpace(d) == d;
    LeadingDigitsOfDigits(Digits(m));
    DigitsValueOfDigits(m);
    if n < 0 {
      assert d[1..] == Digits(m);
    } else {
      assert d[0] != '-' && d[0] != '+';
    }
  }

  /** The C string `fgets` leaves in a zeroed buffer after storing `raw`. */
  function Line(raw: seq<char>): seq<char>
  {
    CStr(raw + [NUL])
  }

  /** A stored text without NUL is exactly the C string the buffer then holds. */
  lemma LineOfText(raw: seq<char>)
    requires NUL !in raw
    ensures Line(raw) == raw
  {
    StrlenAt(raw + [NUL], |raw|);
  }

  /**
   * The paddle value listenNetwork takes from a follow-up line: `rstrip` on the
   * buffer and `atoi` on what is left.
   */
  function ReceivedValue(raw: seq<char>): int
  {
    Atoi(CStr(RStripped(raw + [NUL], '\n')))
  }

  /** Paddle round-trip: the peer reads back the value the sender printed with "%d\n". */
  lemma PaddleLineRoundTrip(y: int)
    ensures ReceivedValue(PaddleLine(y)) == y
  {
    var d := Decimal(y);
    var buf := PaddleLine(y) + [NUL];
    assert forall k :: 0 <= k < |d| ==> d[k] != NUL && d[k] != '\n' by {
      forall k | 0 <= k < |d| ensures d[k] != NUL && d[k] != '\n' {
        if y < 0 && k > 0 { assert d[k] == Digits(-y)[k - 1]; }
      }
    }
    StrlenAt(buf, |d| + 1);
    assert CStr(buf) == d + "\n";
    assert d[|d| - 1] != '\n';
    StripEndAt(d + "\n", '\n', |d|);
    RStripResult(buf, '\n');
    assert CStr(RStripped(buf, '\n')) == (d + "\n")[..|d|] == d;
    AtoiDecimal(y);
  }

  /** The messages listenNetwork tells apart. */
  datatype PeerMessage = Exit | PadLeft | PadRight | Ball | ScoreLeft | ScoreRight | Unknown

  /** The line each known message is sent as. */
  function MessageLine(m: PeerMessage): seq<char>
    requires !m.Unknown?
  {
    match m
    case Exit => "EXIT\n"
    case PadLeft => "PAD_L\n"
    case PadRight => "PAD_R\n"
    case Ball => "BALL\n"
    case ScoreLeft => "SCORE_L\n"
    case ScoreRight => "SCORE_R\n"
  }

  /** listenNetwork's chain of `streq` tests on a received line. */
  function Classify(line: seq<char>): PeerMessage
  {
    if line == "EXIT\n" then Exit
    else if line == "PAD_L\n" then PadLeft
    else if line == "PAD_R\n" then PadRight
    else if line == "BALL\n" then Ball
    else if line == "SCORE_L\n" then ScoreLeft
    else if line == "SCORE_R\n" then ScoreRight
    else Unknown
  }

  /** Classify is the inverse of MessageLine: a line is recognised exactly when it is a message's line. */
  lemma ClassifyMessageLine(m: PeerMessage, line: seq<char>)
    ensures !m.Unknown? ==> Classify(MessageLine(m)) == m
    ensures Classify(line) != Unknown ==> MessageLine(Classify(line)) == line
  {
  }

  /** A follow-up read that left a non-empty C string (`strlen(message) != 0`). */
  predicate Filled(raw: seq<char>)
  {
    Strlen(raw + [NUL]) != 0
  }

  /** Index of the first read that leaves a non-empty string, if any. */
  function FirstFilled(attempts: seq<seq<char>>): (r: Option<nat>)
    ensures r.Some? ==> r.value < |attempts| && Filled(attempts[r.value])
    ensures r.Some? ==> forall k :: 0 <= k < r.value ==> !Filled(attempts[k])
    ensures r.None? ==> forall k :: 0 <= k < |attempts| ==> !Filled(attempts[k])
  {
    if attempts == [] then None
    else if Filled(attempts[0]) then Some(0)
    else match FirstFilled(attempts[1..])
      case None => None
      case Some(i) => Some(i + 1)
  }

  /**
   * The `do { fgets(...) } while (strlen(message) == 0)` loop of listenNetwork,
   * over a finite list of what successive reads stored: the index of the read
   * that ends the loop, or None when none of them does.
   */
  method AwaitPayload(attempts: seq<seq<char>>) returns (r: Option<nat>)
    ensures r == FirstFilled(attempts)
  {
    var i := 0;
    while i < |attempts|
      invariant 0 <= i <= |attempts|
      invariant forall k :: 0 <= k < i ==> !Filled(attempts[k])
    {
      if Strlen(attempts[i] + [NUL]) != 0 {
        return Some(i);
      }
      i := i + 1;
    }
    return None;
  }
}
