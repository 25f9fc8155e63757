/** The polling loop of the queue consumer: a message is deleted only after its worker succeeded. */
module SqsConsumer {
  import opened EzeeReconciliation

  /** One received message: did its worker succeed, and did the queue hear the deletion? */
  datatype Delivery = Delivery(message: Message, worked: bool, deleteHeard: bool)

  /** One receive call: an error, or the messages with their fates. */
  datatype Poll = PollError | Received(deliveries: seq<Delivery>)

  /** How many of the first `n` deliveries are of `m`, worked, and are deleted if `deleted` asks for it. */
  ghost function InBatch(deliveries: seq<Delivery>, n: nat, m: Message, deleted: bool): nat
    requires n <= |deliveries|
  {
    if n == 0 then 0
    else
      var d := deliveries[n - 1];
      InBatch(deliveries, n - 1, m, deleted)
      + if d.message == m && d.worked && (deleted ==> d.deleteHeard) then 1 else 0
  }

  ghost function InPolls(polls: seq<Poll>, n: nat, m: Message, deleted: bool): nat
    requires n <= |polls|
  {
    if n == 0 then 0
    else
      InPolls(polls, n - 1, m, deleted)
      + match polls[n - 1]
        case PollError => 0
        case Received(deliveries) => InBatch(deliveries, |deliveries|, m, deleted)
  }

  function Less(a: nat, b: nat): nat
  {
    if a <= b then 0 else a - b
  }

  lemma {:induction false} DeletedWorkedInBatch(deliveries: seq<Delivery>, n: nat, m: Message)
    requires n <= |deliveries|
    ensures InBatch(deliveries, n, m, true) <= InBatch(deliveries, n, m, false)
  {
    if n > 0 {
      DeletedWorkedInBatch(deliveries, n - 1, m);
    }
  }

  /** Heard deletions are among the successes. */
  lemma {:induction false} DeletedOnlyAfterWork(polls: seq<Poll>, n: nat, m: Message)
    requires n <= |polls|
    ensures InPolls(polls, n, m, true) <= InPolls(polls, n, m, false)
  {
    if n > 0 {
      DeletedOnlyAfterWork(polls, n - 1, m);
      if polls[n - 1].Received? {
        DeletedWorkedInBatch(polls[n - 1].deliveries, |polls[n - 1].deliveries|, m);
      }
    }
  }

  /** A delivery of the message whose worker succeeded and whose deletion was heard. */
  ghost predicate DeletedAt(polls: seq<Poll>, m: Message, i: nat, k: nat)
  {
    && i < |polls| && polls[i].Received? && k < |polls[i].deliveries|
    && polls[i].deliveries[k].message == m && polls[i].deliveries[k].worked && polls[i].deliveries[k].deleteHeard
  }

  lemma {:induction false} DeletionInBatch(deliveries: seq<Delivery>, n: nat, m: Message) returns (k: nat)
    requires n <= |deliveries| && InBatch(deliveries, n, m, true) > 0
    ensures k < n && deliveries[k].message == m && deliveries[k].worked && deliveries[k].deleteHeard
  {
    if InBatch(deliveries, n - 1, m, true) > 0 {
      k := DeletionInBatch(deliveries, n - 1, m);
    } else {
      k := n - 1;
    }
  }

  /** What counts as a deletion has happened. */
  lemma {:induction false} DeletionHappened(polls: seq<Poll>, n: nat, m: Message) returns (i: nat, k: nat)
    requires n <= |polls| && InPolls(polls, n, m, true) > 0
    ensures i < n && DeletedAt(polls, m, i, k)
  {
    if InPolls(polls, n - 1, m, true) > 0 {
      i, k := DeletionHappened(polls, n - 1, m);
    } else {
      i := n - 1;
      k := DeletionInBatch(polls[i].deliveries, |polls[i].deliveries|, m);
    }
  }

  lemma {:induction false} HeardInBatch(deliveries: seq<Delivery>, n: nat, m: Message, k: nat)
    requires k < n <= |deliveries|
    requires deliveries[k].message == m && deliveries[k].worked && deliveries[k].deleteHeard
    ensures InBatch(deliveries, n, m, true) > 0
  {
    if k < n - 1 {
      HeardInBatch(deliveries, n - 1, m, k);
    }
  }

  /** And what has happened counts. */
  lemma {:induction false} DeletionCounts(polls: seq<Poll>, n: nat, m: Message, i: nat, k: nat)
    requires i < n <= |polls| && DeletedAt(polls, m, i, k)
    ensures InPolls(polls, n, m, true) > 0
  {
    if i < n - 1 {
      DeletionCounts(polls, n - 1, m, i, k);
    } else {
      HeardInBatch(polls[i].deliveries, |polls[i].deliveries|, m, k);
    }
  }

  /** Some copy of the message was worked and deleted in the first `n` rounds. */
  ghost predicate WasDeleted(polls: seq<Poll>, n: nat, m: Message)
  {
    exists i, k :: 0 <= i < n && 0 <= k && DeletedAt(polls, m, i, k)
  }

  lemma DeletionsCounted(polls: seq<Poll>, n: nat, m: Message)
    requires n <= |polls|
    ensures InPolls(polls, n, m, true) > 0 <==> WasDeleted(polls, n, m)
  {
    if InPolls(polls, n, m, true) > 0 {
      var i, k := DeletionHappened(polls, n, m);
    } else if i, k :| 0 <= i < n && 0 <= k && DeletedAt(polls, m, i, k) {
      DeletionCounts(polls, n, m, i, k);
    }
  }

  class Consumer {
    var running: bool
    var queue: multiset<Message>

    constructor (queue: multiset<Message>)
      ensures running && this.queue == queue
    {
      this.running, this.queue := true, queue;
    }

    method HandleBatch(deliveries: seq<Delivery>)
      modifies this`queue
      ensures forall m: Message :: queue[m] == Less(old(queue[m]), InBatch(deliveries, |deliveries|, m, true))
    {
      for i := 0 to |deliveries|
        invariant forall m: Message :: queue[m] == Less(old(queue[m]), InBatch(deliveries, i, m, true))
      {
        if deliveries[i].worked {
          if deliveries[i].deleteHeard {
            queue := queue - multiset{deliveries[i].message};
          }
        }
      }
    }

    /**
     * `shutdown(i)` says that the module was destroyed during round `i`; the round is still finished. A
     * message that no worker succeeded on stays, and none is removed more often than workers succeeded.
     */
    method PollLoop(polls: seq<Poll>, shutdown: nat -> bool) returns (rounds: nat)
      requires running
      modifies this
      ensures rounds <= |polls| && (rounds < |polls| ==> !running)
      ensures forall i | 0 <= i < rounds - 1 :: !shutdown(i)
      ensures forall m: Message :: queue[m] == Less(old(queue[m]), InPolls(polls, rounds, m, true))
      ensures forall m: Message :: queue[m] < old(queue[m]) <==>
                old(queue[m]) > 0 && WasDeleted(polls, rounds, m)
      ensures forall m: Message :: InPolls(polls, rounds, m, false) == 0 ==> queue[m] == old(queue[m])
      ensures forall m: Message :: old(queue[m]) - queue[m] <= InPolls(polls, rounds, m, false)
    {
      hide WasDeleted;
      rounds := 0;
      while running && rounds < |polls|
        invariant rounds <= |polls|
        invariant forall i | 0 <= i < rounds - 1 :: !shutdown(i)
        invariant running ==> rounds > 0 ==> !shutdown(rounds - 1)
        invariant forall m: Message :: queue[m] == Less(old(queue[m]), InPolls(polls, rounds, m, true))
      {
        if polls[rounds].Received? {
          HandleBatch(polls[rounds].deliveries);
        }
        if shutdown(rounds) {
          running := false;
        }
        rounds := rounds + 1;
      }
      forall m: Message
        ensures InPolls(polls, rounds, m, true) <= InPolls(polls, rounds, m, false)
        ensures InPolls(polls, rounds, m, true) > 0 <==> WasDeleted(polls, rounds, m)
      {
        DeletedOnlyAfterWork(polls, rounds, m);
        DeletionsCounted(polls, rounds, m);
      }
    }
  }
}
