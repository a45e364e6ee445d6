/** Kafka's big-endian INT32, correlation identities and reply classification. */
module Wire {
  import opened Common

  newtype byte = x: int | 0 <= x < 256

  type Bytes = seq<byte>

  const PREFIX: nat := 4

  /** `i32::from_be_bytes` of the first four bytes. */
  function Int32At(b: Bytes): (v: int)
    requires |b| >= PREFIX
    ensures -0x8000_0000 <= v <= I32_MAX
  {
    var unsigned := ((b[0] as int * 256 + b[1] as int) * 256 + b[2] as int) * 256 + b[3] as int;
    if unsigned <= I32_MAX then unsigned else unsigned - 0x1_0000_0000
  }

  function Int32Bytes(v: nat): (b: Bytes)
    requires v <= I32_MAX
    ensures |b| == PREFIX
  {
    [(v / 0x100_0000) as byte, (v / 0x1_0000 % 256) as byte, (v / 256 % 256) as byte, (v % 256) as byte]
  }

  lemma Int32RoundTrip(v: nat, rest: Bytes)
    requires v <= I32_MAX
    ensures Int32At(Int32Bytes(v) + rest) == v
  {
    var b := Int32Bytes(v) + rest;
    var (q1, q2, q3) := (v / 256, v / 256 / 256, v / 256 / 256 / 256);
    assert v == q1 * 256 + v % 256 && q1 == q2 * 256 + q1 % 256 && q2 == q3 * 256 + q2 % 256;
    assert v / 0x1_0000 == q2 && v / 0x100_0000 == q3;
    assert b[0] as int == q3 && b[1] as int == q2 % 256 && b[2] as int == q1 % 256 && b[3] as int == v % 256;
  }

  datatype KeyError = NegativeCorrelationId(id: int) | MatchKeyOutOfRange(key: nat) | TruncatedCorrelationId(observed: nat)

  datatype Checked<+T> = Ok(value: T) | Err(error: KeyError)

  /** Engine match key of a correlation id, an `i32`. */
  function MatchKey(correlation: int): Checked<nat> {
    if correlation < 0 then Err(NegativeCorrelationId(correlation)) else Ok(correlation)
  }

  /** Correlation id of an engine match key, a `u32`. */
  function CorrelationOf(key: nat): Checked<int> {
    if key > I32_MAX then Err(MatchKeyOutOfRange(key)) else Ok(key)
  }

  function ReplyKey(frame: Bytes): Checked<nat> {
    if |frame| < PREFIX then Err(TruncatedCorrelationId(|frame|)) else MatchKey(Int32At(frame))
  }

  /** The two conversions are inverse exactly on 0..=i32::MAX. */
  lemma KeysRoundTrip(correlation: int, key: nat)
    requires correlation <= I32_MAX
    ensures MatchKey(correlation).Ok? <==> 0 <= correlation
    ensures MatchKey(correlation).Ok? ==> CorrelationOf(MatchKey(correlation).value) == Ok(correlation)
    ensures CorrelationOf(key).Ok? <==> key <= I32_MAX
    ensures CorrelationOf(key).Ok? ==> MatchKey(CorrelationOf(key).value) == Ok(key)
  {
  }

  /** A classified reply always names a key the driver can turn back into a correlation id. */
  lemma ReplyKeyInDomain(frame: Bytes)
    ensures ReplyKey(frame).Ok? ==> CorrelationOf(ReplyKey(frame).value).Ok?
  {
  }

  /** A reply is recognised by the correlation id its request carried. */
  lemma ReplyKeyOfCorrelation(correlation: nat, body: Bytes)
    requires correlation <= I32_MAX
    ensures ReplyKey(Int32Bytes(correlation) + body) == Ok(correlation)
  {
    Int32RoundTrip(correlation, body);
  }
}
