/**
 * The local token estimate of `ChatHistory::count_tokens`. The tokenizer (tiktoken's
 * cl100k_base) is a parameter `tok`: only the number of tokens it assigns to a string
 * matters here.
 */
module TokenCount {
  import opened Wrappers
  import opened Messages

  /** The running count starts here: one token too many was always observed. */
  const Correction: int := -1

  /** Overhead of `<im_start>{role/name}\n{content}<im_end>\n` around every message. */
  const Overhead: int := 4

  /** A User message with a name: one overhead token fewer, and the name's tokens. */
  predicate NamedUser(m: Message) {
    m.role == User && m.name.Some?
  }

  /** What one message adds to the estimate. */
  function MessageCost(m: Message, tok: string -> nat): (c: int)
    ensures c >= 3
    ensures !NamedUser(m) ==> c >= Overhead
  {
    (if NamedUser(m) then Overhead - 1 + tok(m.name.value) else Overhead)
    + tok(RoleName(m.role)) + tok(m.content)
  }

  /** The cost of the messages of `h`, in order. */
  function CostSum(h: seq<Message>, tok: string -> nat): (c: int)
    ensures c >= 3 * |h|
  {
    if h == [] then 0 else CostSum(h[..|h| - 1], tok) + MessageCost(h[|h| - 1], tok)
  }

  /** The estimate for the log `h`. */
  function Estimate(h: seq<Message>, tok: string -> nat): (e: int)
    ensures e >= 3 * |h| - 1
  {
    Correction + CostSum(h, tok)
  }

  /** An empty log is estimated at -1, the only case where the estimate is negative. */
  lemma EstimateSign(h: seq<Message>, tok: string -> nat)
    ensures h == [] ==> Estimate(h, tok) == -1
    ensures h != [] ==> Estimate(h, tok) >= 2
  {
  }

  /** Appending a message adds exactly its cost. */
  lemma EstimateAppend(h: seq<Message>, m: Message, tok: string -> nat)
    ensures Estimate(h + [m], tok) == Estimate(h, tok) + MessageCost(m, tok)
  {
    assert (h + [m])[..|h|] == h;
  }

  /** The estimate is additive over concatenated logs. */
  lemma {:induction false} EstimateConcat(a: seq<Message>, b: seq<Message>, tok: string -> nat)
    ensures Estimate(a + b, tok) == Estimate(a, tok) + CostSum(b, tok)
    decreases |b|
  {
    if b == [] {
      assert a + b == a;
    } else {
      var b' := b[..|b| - 1];
      assert (a + b)[..|a + b| - 1] == a + b';
      EstimateConcat(a, b', tok);
    }
  }

  /** Every appended message raises the estimate by at least three. */
  lemma EstimateGrows(h: seq<Message>, m: Message, tok: string -> nat)
    ensures Estimate(h + [m], tok) >= Estimate(h, tok) + 3
  {
    EstimateAppend(h, m, tok);
  }

  /** A prefix of a log is estimated at least three tokens per missing message lower. */
  lemma EstimatePrefix(h: seq<Message>, k: nat, tok: string -> nat)
    requires k <= |h|
    ensures Estimate(h[..k], tok) + 3 * (|h| - k) <= Estimate(h, tok)
  {
    assert h == h[..k] + h[k..];
    EstimateConcat(h[..k], h[k..], tok);
  }

  /** Number of User messages in `h` that carry a name. */
  function NamedUsers(h: seq<Message>): (n: nat)
    ensures n <= |h|
  {
    if h == [] then 0 else (if NamedUser(h[0]) then 1 else 0) + NamedUsers(h[1..])
  }

  /** The tokens of everything the tokenizer is asked about for `m`. */
  function TextTokens(m: Message, tok: string -> nat): nat {
    (if NamedUser(m) then tok(m.name.value) else 0) + tok(RoleName(m.role)) + tok(m.content)
  }

  /** The text tokens of all messages of `h`. */
  function AllTextTokens(h: seq<Message>, tok: string -> nat): nat {
    if h == [] then 0 else TextTokens(h[0], tok) + AllTextTokens(h[1..], tok)
  }

  /**
   * The estimate in closed form: -1, plus 4 per message, minus 1 per named User
   * message, plus the tokens of every role label, content and User name.
   */
  lemma {:induction false} EstimateClosedForm(h: seq<Message>, tok: string -> nat)
    ensures Estimate(h, tok) == Correction + Overhead * |h| - NamedUsers(h) + AllTextTokens(h, tok)
    decreases |h|
  {
    if h != [] {
      EstimateClosedForm(h[1..], tok);
      assert h == [h[0]] + h[1..];
      EstimateConcat([h[0]], h[1..], tok);
      assert [h[0]][..0] == [];
      assert CostSum([h[0]], tok) == MessageCost(h[0], tok);
    }
  }
}
