/** Messages injected into a running agent: `drainInbox` (executor/executor.go). */
module Inbox {
  import opened Chat
  import opened Text

  /** What one non-blocking receive finds. */
  datatype Poll = Got(msg: Message) | Empty | Closed | Cancelled

  /** Where the loop is: what every transcript entry of an iteration repeats. */
  datatype Place = Place(agent: string, task: string, project: string, iteration: int)

  /** A line of the transcript. */
  datatype Entry = Entry(place: Place, role: Role, content: string)

  const MAX_DRAINED := 100

  function Injected(m: Message): Message {
    Plain(User, m.content)
  }

  /** Appends what is pending, in order and as plain user messages, up to a hundred, and records each:
      a fast producer cannot hold up the loop, no injected message can pose as the system or a tool,
      and the transcript shows exactly what was added. */
  method DrainInbox(inbox: Option<nat -> Poll>, cancelled: bool, given: seq<Message>, place: Place)
    returns (messages: seq<Message>, closed: bool, recorded: seq<Entry>)
    ensures |given| <= |messages| <= |given| + 100 && messages[..|given|] == given
    ensures inbox.None? || cancelled ==> messages == given && !closed
    ensures inbox.Some? && !cancelled ==>
              var n := |messages| - |given|;
              && (forall k :: 0 <= k < n ==> inbox.value(k).Got? && messages[|given| + k] == Injected(inbox.value(k).msg))
              && (n < 100 ==> !inbox.value(n).Got? && closed == inbox.value(n).Closed?)
              && (n == 100 ==> !closed)
    ensures |recorded| == |messages| - |given|
    ensures forall k :: 0 <= k < |recorded| ==>
              recorded[k] == Entry(place, messages[|given| + k].role, messages[|given| + k].content)
  {
    messages, closed, recorded := given, false, [];
    if inbox.None? || cancelled {
      return;
    }
    for i := 0 to MAX_DRAINED
      invariant |messages| == |given| + i && messages[..|given|] == given && |recorded| == i
      invariant forall k :: 0 <= k < i ==> inbox.value(k).Got? && messages[|given| + k] == Injected(inbox.value(k).msg)
      invariant forall k :: 0 <= k < i ==>
                  recorded[k] == Entry(place, messages[|given| + k].role, messages[|given| + k].content)
    {
      match inbox.value(i)
      case Got(msg) =>
        var normalized := Injected(msg);
        messages := messages + [normalized];
        recorded := recorded + [Entry(place, normalized.role, normalized.content)];
      case Closed =>
        closed := true;
        return;
      case _ => return;
    }
  }
}
