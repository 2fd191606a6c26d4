/** The outbound message queue: a FIFO of (phone, text) items drained by one processing
    run at a time, with a capped linear backoff after a failed send. The outcome of each send
    attempt is an input; the timers that schedule the runs are not modelled. */
module MessageQueue {
  import opened Wrappers
  import opened Text

  datatype Message = Message(phone: string, text: string)

  const ChatSuffix := "@c.us"

  /** The WhatsApp chat id a message is sent to: the phone, with `@c.us` appended unless it
      already ends with it. */
  function ChatId(phone: string): string {
    if EndsWith(phone, ChatSuffix) then phone else phone + ChatSuffix
  }

  /** Every chat id carries the suffix exactly once at the end: a phone that has it is kept,
      any other gets it appended. */
  lemma ChatIdShape(phone: string)
    ensures EndsWith(ChatId(phone), ChatSuffix)
    ensures EndsWith(phone, ChatSuffix) <==> ChatId(phone) == phone
    ensures !EndsWith(phone, ChatSuffix) ==> ChatId(phone) == phone + ChatSuffix
  {
    if !EndsWith(phone, ChatSuffix) {
      assert (phone + ChatSuffix)[|phone + ChatSuffix| - |ChatSuffix|..] == ChatSuffix;
    }
  }

  /** Applying the suffix rule twice is applying it once. */
  lemma ChatIdIdempotent(phone: string)
    ensures ChatId(ChatId(phone)) == ChatId(phone)
  {
    ChatIdShape(phone);
  }

  /** The wait before the retry after the `attempt`-th consecutive failure, in milliseconds. */
  function Backoff(attempt: nat): (wait: nat)
    ensures wait <= 30000
    ensures attempt >= 1 ==> wait >= 1000
    ensures wait == 30000 || wait == 1000 * attempt
  {
    if 1000 * attempt < 30000 then 1000 * attempt else 30000
  }

  /** More failures never shorten the wait. */
  lemma BackoffMonotone(a: nat, b: nat)
    requires a <= b
    ensures Backoff(a) <= Backoff(b)
  {
  }

  /** From the thirtieth consecutive failure on, the wait is the cap. */
  lemma BackoffCapped(attempt: nat)
    ensures Backoff(attempt) == 30000 <==> attempt >= 30
  {
  }

  /** What the client is asked to send for one message. */
  function Outgoing(m: Message): (string, string) {
    (ChatId(m.phone), m.text)
  }

  /** What the client receives for a run of messages, in queue order. */
  function Sent(ms: seq<Message>): (r: seq<(string, string)>)
    ensures |r| == |ms|
    ensures forall i :: 0 <= i < |ms| ==> r[i] == Outgoing(ms[i])
  {
    if ms == [] then [] else Sent(ms[..|ms| - 1]) + [Outgoing(ms[|ms| - 1])]
  }

  /** Sending two runs one after the other is sending their concatenation. */
  lemma {:induction false} SentAppend(a: seq<Message>, b: seq<Message>)
    ensures Sent(a + b) == Sent(a) + Sent(b)
    decreases |b|
  {
    if b == [] {
      assert a + b == a;
    } else {
      var c := a + b;
      assert c[..|c| - 1] == a + b[..|b| - 1];
      SentAppend(a, b[..|b| - 1]);
    }
  }

  /** How many of the first `n` send attempts succeed before the first failure. */
  function Delivered(outcomes: seq<bool>, n: nat): (k: nat)
    requires n <= |outcomes|
    ensures k <= n
    ensures forall j :: 0 <= j < k ==> outcomes[j]
    ensures k < n ==> !outcomes[k]
  {
    if n == 0 || !outcomes[0] then 0 else 1 + Delivered(outcomes[1..], n - 1)
  }

  /** The count is determined by where the first failure is. */
  lemma DeliveredAt(outcomes: seq<bool>, n: nat, k: nat)
    requires k <= n <= |outcomes|
    requires forall j :: 0 <= j < k ==> outcomes[j]
    requires k < n ==> !outcomes[k]
    ensures Delivered(outcomes, n) == k
  {
  }

  /** A failing head blocks the whole queue: nothing behind it is delivered. */
  lemma HeadBlocks(outcomes: seq<bool>, n: nat)
    requires 1 <= n <= |outcomes| && !outcomes[0]
    ensures Delivered(outcomes, n) == 0
  {
  }

  class Queue {
    /** The module-level `queue` array. */
    var pending: seq<Message>
    /** Whether `setClient` has given a client. */
    var hasClient: bool
    /** The `sending` flag. */
    var sending: bool
    /** Consecutive failed attempts. */
    var attempt: nat
    /** Every (chat id, text) the client has accepted, in order. */
    var sent: seq<(string, string)>

    constructor ()
      ensures pending == [] && !hasClient && !sending && attempt == 0 && sent == []
    {
      pending := [];
      hasClient := false;
      sending := false;
      attempt := 0;
      sent := [];
    }

    /** `setClient`. */
    method SetClient(present: bool)
      modifies this
      ensures hasClient == present
      ensures pending == old(pending) && sending == old(sending) && attempt == old(attempt) && sent == old(sent)
    {
      hasClient := present;
    }

    /** `enqueueMessage`: appends to the tail and changes nothing else. */
    method Enqueue(phone: string, text: string)
      modifies this
      ensures pending == old(pending) + [Message(phone, text)]
      ensures hasClient == old(hasClient) && sending == old(sending) && attempt == old(attempt) && sent == old(sent)
    {
      pending := pending + [Message(phone, text)];
    }

    /** `processQueue`, given the outcome of each send it would attempt (`outcomes[j]` for
        the j-th message of this run). A run that cannot start changes nothing. Otherwise it
        sends from the head while sends succeed: each success removes exactly the head and
        resets `attempt`; the first failure keeps the head, counts one more attempt and
        returns the backoff of the scheduled retry. `finally` clears `sending` either way. */
    method Process(outcomes: seq<bool>) returns (retry: Option<nat>)
      requires |outcomes| >= |pending|
      modifies this
      ensures old(sending) || old(pending) == [] || !old(hasClient) ==>
        && retry.None? && pending == old(pending) && sending == old(sending)
        && attempt == old(attempt) && sent == old(sent)
      ensures !old(sending) && old(pending) != [] && old(hasClient) ==>
        var k := Delivered(outcomes, |old(pending)|);
        && pending == old(pending)[k..]
        && sent == old(sent) + Sent(old(pending)[..k])
        && !sending
        && (k == |old(pending)| ==> attempt == 0 && retry.None?)
        && (k < |old(pending)| ==>
              && attempt == (if k > 0 then 0 else old(attempt)) + 1
              && retry == Some(Backoff(attempt)))
      ensures hasClient == old(hasClient)
    {
      if sending || pending == [] || !hasClient {
        return None;
      }
      sending := true;
      ghost var queued := pending;
      var k := 0;
      while pending != []
        invariant k <= |queued| && pending == queued[k..]
        invariant sent == old(sent) + Sent(queued[..k])
        invariant forall j :: 0 <= j < k ==> outcomes[j]
        invariant attempt == if k > 0 then 0 else old(attempt)
        invariant sending && hasClient == old(hasClient)
        decreases |pending|
      {
        var item := pending[0];
        if !outcomes[k] {
          attempt := attempt + 1;
          sending := false;
          DeliveredAt(outcomes, |queued|, k);
          return Some(Backoff(attempt));
        }
        assert queued[..k + 1][..k] == queued[..k];
        sent := sent + [Outgoing(item)];
        pending := pending[1..];
        attempt := 0;
        k := k + 1;
      }
      DeliveredAt(outcomes, |queued|, k);
      sending := false;
      retry := None;
    }
  }
}
