/**
 * Human-readable messages. Literal text is kept exactly; numbers and dates
 * that the source renders with a format specification are kept as values
 * together with that specification, because float and date rendering is
 * not part of the model.
 */
module Explain {

  /** The format specifications the job finder uses on numbers. */
  datatype NumFormat =
    | Signed0   // `{x:+.0f}`
    | Fixed0    // `{x:.0f}`
    | Fixed1    // `{x:.1f}`
    | Percent2  // `{x:.2%}`
    | Repr      // `str(x)` / `{x}`

  datatype Fragment =
    | Lit(text: string)
    | Num(value: real, format: NumFormat)
    | Int(n: int)                 // `{n}` of a Python int
    | Date(seconds: int)          // `strftime('%Y-%m-%d')` of a timestamp

  type Message = seq<Fragment>

  function Plain(s: string): Message {
    [Lit(s)]
  }

  /** `sep.join(parts)` on messages. */
  function JoinMessages(parts: seq<Message>, sep: string): Message
    decreases |parts|
  {
    if |parts| == 0 then []
    else if |parts| == 1 then parts[0]
    else parts[0] + [Lit(sep)] + JoinMessages(parts[1..], sep)
  }

  /** Number of rendered numbers in a message. */
  function NumCount(m: Message): nat
    decreases |m|
  {
    if |m| == 0 then 0 else (if m[0].Num? then 1 else 0) + NumCount(m[1..])
  }

  lemma {:induction false} NumCountConcat(a: Message, b: Message)
    ensures NumCount(a + b) == NumCount(a) + NumCount(b)
    decreases |a|
  {
    if |a| > 0 {
      assert (a + b)[1..] == a[1..] + b;
      assert (a + b)[0] == a[0];
      NumCountConcat(a[1..], b);
    } else {
      assert a + b == b;
    }
  }

  /** Joining with a literal separator adds no numbers. */
  lemma {:induction false} NumCountJoin(parts: seq<Message>, sep: string)
    ensures NumCount(JoinMessages(parts, sep)) == SumNumCounts(parts)
    decreases |parts|
  {
    if |parts| > 1 {
      NumCountJoin(parts[1..], sep);
      NumCountConcat(parts[0] + [Lit(sep)], JoinMessages(parts[1..], sep));
      NumCountConcat(parts[0], [Lit(sep)]);
      assert NumCount([Lit(sep)]) == 0;
    }
  }

  function SumNumCounts(parts: seq<Message>): nat
    decreases |parts|
  {
    if |parts| == 0 then 0 else NumCount(parts[0]) + SumNumCounts(parts[1..])
  }
}
