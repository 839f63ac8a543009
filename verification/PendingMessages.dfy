/** The queues in which an agent holds messages until its loop asks for them. */
module PendingMessages {
  import opened AgentTrace

  class PendingMessageQueue {
    var messages: seq<Message>
    var oneAtATime: bool
    /** Everything ever put in, and everything drained or cleared away. */
    ghost var enqueued: seq<Message>
    ghost var taken: seq<Message>

    /** Nothing is lost, duplicated or reordered between the two ends. */
    ghost predicate Valid()
      reads this
    {
      enqueued == taken + messages
    }

    constructor (oneAtATime: bool)
      ensures Valid() && messages == [] && taken == [] && this.oneAtATime == oneAtATime
    {
      messages, enqueued, taken := [], [], [];
      this.oneAtATime := oneAtATime;
    }

    method Enqueue(message: Message)
      requires Valid()
      modifies this`messages, this`enqueued
      ensures Valid() && messages == old(messages) + [message] && enqueued == old(enqueued) + [message]
    {
      messages := messages + [message];
      enqueued := enqueued + [message];
      assert taken + messages == (taken + old(messages)) + [message];
    }

    method EnqueueAll(arrivals: seq<Message>)
      requires Valid()
      modifies this`messages, this`enqueued
      ensures Valid() && messages == old(messages) + arrivals && enqueued == old(enqueued) + arrivals
    {
      for i := 0 to |arrivals|
        invariant Valid() && messages == old(messages) + arrivals[..i] && enqueued == old(enqueued) + arrivals[..i]
      {
        Enqueue(arrivals[i]);
        assert arrivals[..i + 1] == arrivals[..i] + [arrivals[i]];
      }
      assert arrivals[..|arrivals|] == arrivals;
    }

    function Peek(): (selected: seq<Message>)
      reads this
      ensures selected <= messages && (selected == [] <==> messages == [])
      ensures if oneAtATime then |selected| <= 1 else selected == messages
    {
      if !oneAtATime || messages == [] then messages else [messages[0]]
    }

    /** Take the oldest message, or all of them, off the front. */
    method Drain() returns (drained: seq<Message>)
      requires Valid()
      modifies this`messages, this`taken
      ensures Valid() && drained == old(Peek()) && old(messages) == drained + messages && taken == old(taken) + drained
    {
      drained := Peek();
      messages := messages[|drained|..];
      taken := taken + drained;
      assert taken + messages == old(taken) + (drained + messages);
    }

    method Clear()
      requires Valid()
      modifies this`messages, this`taken
      ensures Valid() && messages == [] && taken == enqueued
    {
      taken := taken + messages;
      messages := [];
    }
  }
}
