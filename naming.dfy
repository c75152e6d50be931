/**
 * Session naming: the id `datetime.utcnow().strftime("%Y%m%d%H%M%S")` and the
 * two recording file names derived from it.
 */
module SessionNaming {

  /** A UTC instant to the second; the clock reading is an input of the model. */
  datatype Timestamp = Timestamp(year: nat, month: nat, day: nat, hour: nat, minute: nat, second: nat)

  /**
   * The readings `datetime.utcnow()` can give, with four-digit years: below
   * year 1000 the platform's `%Y` may not pad, which this model does not cover.
   */
  predicate ValidTimestamp(t: Timestamp) {
    && 1000 <= t.year <= 9999
    && 1 <= t.month <= 12
    && 1 <= t.day <= 31
    && t.hour < 24
    && t.minute < 60
    && t.second < 60
  }

  function Pow10(n: nat): (r: nat)
    ensures r > 0
  {
    if n == 0 then 1 else 10 * Pow10(n - 1)
  }

  predicate IsDigit(c: char) {
    '0' <= c <= '9'
  }

  predicate AllDigits(s: string) {
    forall i :: 0 <= i < |s| ==> IsDigit(s[i])
  }

  /** The number a string of decimal digits denotes, most significant digit first. */
  function DecimalValue(s: string): (r: nat)
    requires AllDigits(s)
    ensures r < Pow10(|s|)
  {
    if s == [] then 0
    else
      var init := DecimalValue(s[..|s| - 1]);
      assert init + 1 <= Pow10(|s| - 1);
      assert 10 * (init + 1) <= 10 * Pow10(|s| - 1);
      10 * init + (s[|s| - 1] as int - '0' as int)
  }

  /** `n` in decimal, left-padded with zeros to `width` digits, as `%Y`, `%m`, ... print it. */
  function ZeroPad(n: nat, width: nat): (r: string)
    requires n < Pow10(width)
    ensures |r| == width && AllDigits(r) && DecimalValue(r) == n
  {
    if width == 0 then ""
    else
      var r := ZeroPad(n / 10, width - 1) + [('0' as int + n % 10) as char];
      assert r[..width - 1] == ZeroPad(n / 10, width - 1);
      r
  }

  /** `strftime("%Y%m%d%H%M%S")`: fourteen digits, year first, second last. */
  function SessionId(t: Timestamp): (id: string)
    requires ValidTimestamp(t)
    ensures |id| == 14 && AllDigits(id)
  {
    ZeroPad(t.year, 4) + ZeroPad(t.month, 2) + ZeroPad(t.day, 2)
    + ZeroPad(t.hour, 2) + ZeroPad(t.minute, 2) + ZeroPad(t.second, 2)
  }

  /** A reader of session ids: the instant each group of digits names. */
  function ParseSessionId(id: string): Timestamp
    requires |id| == 14 && AllDigits(id)
  {
    Timestamp(DecimalValue(id[0..4]), DecimalValue(id[4..6]), DecimalValue(id[6..8]),
              DecimalValue(id[8..10]), DecimalValue(id[10..12]), DecimalValue(id[12..14]))
  }

  /** Reading an id back gives the instant it was made from. */
  lemma SessionIdRoundTrip(t: Timestamp)
    requires ValidTimestamp(t)
    ensures ParseSessionId(SessionId(t)) == t
  {
    var id := SessionId(t);
    assert id[0..4] == ZeroPad(t.year, 4);
    assert id[4..6] == ZeroPad(t.month, 2);
    assert id[6..8] == ZeroPad(t.day, 2);
    assert id[8..10] == ZeroPad(t.hour, 2);
    assert id[10..12] == ZeroPad(t.minute, 2);
    assert id[12..14] == ZeroPad(t.second, 2);
  }

  /**
   * Two sessions share an id exactly when they were accepted in the same
   * second: distinct seconds never collide, and nothing separates two
   * sessions opened within one second.
   */
  lemma SessionIdCollision(t1: Timestamp, t2: Timestamp)
    requires ValidTimestamp(t1) && ValidTimestamp(t2)
    ensures SessionId(t1) == SessionId(t2) <==> t1 == t2
  {
    SessionIdRoundTrip(t1);
    SessionIdRoundTrip(t2);
  }

  /** `f"conversation_{session_id}.wav"`. */
  function ConversationFileName(id: string): (name: string)
    ensures |name| == |id| + 17
  {
    "conversation_" + id + ".wav"
  }

  /** `f"transcript_{session_id}.txt"`. */
  function TranscriptFileName(id: string): (name: string)
    ensures |name| == |id| + 15
  {
    "transcript_" + id + ".txt"
  }

  /** Each file name determines its session id, so it determines the second the session began. */
  lemma FileNamesIdentifySession(t1: Timestamp, t2: Timestamp)
    requires ValidTimestamp(t1) && ValidTimestamp(t2)
    ensures ConversationFileName(SessionId(t1)) == ConversationFileName(SessionId(t2)) <==> t1 == t2
    ensures TranscriptFileName(SessionId(t1)) == TranscriptFileName(SessionId(t2)) <==> t1 == t2
  {
    var id1, id2 := SessionId(t1), SessionId(t2);
    if ConversationFileName(id1) == ConversationFileName(id2) {
      assert id1 == ConversationFileName(id1)[13..27];
      assert id2 == ConversationFileName(id2)[13..27];
    }
    if TranscriptFileName(id1) == TranscriptFileName(id2) {
      assert id1 == TranscriptFileName(id1)[11..25];
      assert id2 == TranscriptFileName(id2)[11..25];
    }
    SessionIdCollision(t1, t2);
  }

  /** The audio recording and the transcript of any two sessions never share a name. */
  lemma RecordingAndTranscriptNamesDiffer(id1: string, id2: string)
    ensures ConversationFileName(id1) != TranscriptFileName(id2)
  {
    assert ConversationFileName(id1)[0] == 'c';
    assert TranscriptFileName(id2)[0] == 't';
  }
}
