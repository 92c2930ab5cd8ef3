/** The conversation history the home page is rendered with (main.py:56): the messages of the
    conversation other than the system prompt, of which the last ten at most are kept, in their
    original order. */
module History {
  /** One entry of the conversation: who wrote it and what it says. */
  datatype Message = Message(role: string, content: string)

  /** The role of the instructions that open every conversation. */
  const SystemRole: string := "system"

  /** The number of messages the page shows. */
  const HistoryLength: nat := 10

  /** The comprehension `[... for m in messages if m["role"] != "system"]`. */
  function NonSystem(ms: seq<Message>): (r: seq<Message>)
    ensures |r| <= |ms|
    ensures forall i :: 0 <= i < |r| ==> r[i].role != SystemRole
    decreases |ms|
  {
    if |ms| == 0 then []
    else (if ms[0].role == SystemRole then [] else [ms[0]]) + NonSystem(ms[1..])
  }

  /** The slice `[-10:]` of the filtered messages: ten messages, or all the non-system ones
      when there are fewer, forming the tail of the filtered conversation. */
  function History(ms: seq<Message>): (h: seq<Message>)
    ensures var v := NonSystem(ms);
      && |h| == (if |v| < HistoryLength then |v| else HistoryLength)
      && h == v[|v| - |h|..]
  {
    var v := NonSystem(ms);
    if |v| > HistoryLength then v[|v| - HistoryLength..] else v
  }

  /** Filtering keeps every message whose role is not `system`, in order, and no other. */
  lemma {:induction false} NonSystemAppend(a: seq<Message>, b: seq<Message>)
    ensures NonSystem(a + b) == NonSystem(a) + NonSystem(b)
    decreases |a|
  {
    if |a| == 0 {
      assert a + b == b;
    } else {
      assert (a + b)[0] == a[0];
      assert (a + b)[1..] == a[1..] + b;
      NonSystemAppend(a[1..], b);
    }
  }

  lemma NonSystemOne(m: Message)
    ensures NonSystem([m]) == if m.role == SystemRole then [] else [m]
  {
    assert [m][1..] == [];
  }

  /** A conversation without the system role passes the filter unchanged. */
  lemma {:induction false} NonSystemKeepsOthers(ms: seq<Message>)
    requires forall i :: 0 <= i < |ms| ==> ms[i].role != SystemRole
    ensures NonSystem(ms) == ms
    decreases |ms|
  {
    if |ms| > 0 {
      NonSystemKeepsOthers(ms[1..]);
      assert [ms[0]] + ms[1..] == ms;
    }
  }

  /** The number of messages whose role is not `system`. */
  function OtherCount(ms: seq<Message>): nat
    decreases |ms|
  {
    if |ms| == 0 then 0 else (if ms[0].role == SystemRole then 0 else 1) + OtherCount(ms[1..])
  }

  /** The filter drops exactly the system messages. */
  lemma {:induction false} NonSystemCount(ms: seq<Message>)
    ensures |NonSystem(ms)| == OtherCount(ms)
    decreases |ms|
  {
    if |ms| > 0 {
      NonSystemCount(ms[1..]);
    }
  }

  /** The system prompt at the head of the conversation never shows. */
  lemma SystemPromptHidden(prompt: Message, rest: seq<Message>)
    requires prompt.role == SystemRole
    ensures History([prompt] + rest) == History(rest)
  {
    NonSystemAppend([prompt], rest);
    NonSystemOne(prompt);
    var v := NonSystem(rest);
    assert [] + v == v;
    assert NonSystem([prompt] + rest) == v;
  }

  /** After a message from the user or the assistant is appended, the history is the previous
      one with that message added at the end and, when it overflows, its oldest message dropped. */
  lemma HistoryAfterAppend(ms: seq<Message>, m: Message)
    requires m.role != SystemRole
    ensures var h, h' := History(ms), History(ms + [m]);
      && h' == (if |h| == HistoryLength then h[1..] else h) + [m]
  {
    NonSystemAppend(ms, [m]);
    NonSystemOne(m);
    var v := NonSystem(ms);
    assert NonSystem(ms + [m]) == v + [m];
    if |v| >= HistoryLength {
      TailAppend(v, m, HistoryLength);
    }
  }

  lemma TailAppend(v: seq<Message>, m: Message, n: nat)
    requires 0 < n <= |v|
    ensures (v + [m])[|v| + 1 - n..] == v[|v| - n..][1..] + [m]
  {
  }
}
