/**
 * The restart decision of the bus watches in sender/sender.c (bus_callback,
 * timeout_destroy) and streaminsync.c (the same callback with both restart
 * flags switched on and a fixed interval). ERROR is logged and then handled
 * exactly like EOS: the pipeline is set to NULL and, when the flag for the
 * message type is set and no restart timer is pending, one timer is created
 * and stored in the `timeout` field. The timer's destroy notify clears the
 * field again.
 */
module RestartPolicy {
  import opened Wrappers
  import opened GstGraph

  /** A restart timer source, g_timeout_source_new(intervalMs), attached to the loop's context. */
  datatype Timer = Timer(intervalMs: nat)

  /** The flags and interval consulted by a bus watch. */
  datatype Policy = Policy(restartOnError: bool, restartOnEos: bool, intervalMs: nat)

  /** What the watch does for one message: whether it sets the pipeline to NULL and the timer it creates, if any. */
  datatype Reaction = Reaction(stopsPipe: bool, created: Option<Timer>)

  /** ERROR falls through to EOS: both stop the pipeline. */
  predicate Ends(kind: MessageType)
  {
    kind == Error || kind == Eos
  }

  /** The flag consulted for an ending message: restart_on_error for ERROR, restart_on_eos otherwise. */
  function Wants(p: Policy, kind: MessageType): bool
  {
    if kind == Error then p.restartOnError else p.restartOnEos
  }

  /** One bus_callback invocation, given the timer pending before it. */
  function React(p: Policy, kind: MessageType, pending: Option<Timer>): Reaction
  {
    match kind
    case Error => Stop(p, kind, pending)
    case Eos => Stop(p, kind, pending)
    case _ => Reaction(false, None)
  }

  /** The shared ERROR/EOS branch. */
  function Stop(p: Policy, kind: MessageType, pending: Option<Timer>): Reaction
  {
    Reaction(true, if Wants(p, kind) && pending == None then Some(Timer(p.intervalMs)) else None)
  }

  /** The `timeout` field after a reaction: the new timer if one was created, otherwise unchanged. */
  function After(pending: Option<Timer>, r: Reaction): Option<Timer>
  {
    if r.created.Some? then r.created else pending
  }

  /** A message that would schedule a restart if no timer were pending. */
  predicate Triggers(p: Policy, kind: MessageType)
  {
    Ends(kind) && Wants(p, kind)
  }

  /**
   * The watch stops the pipeline exactly on ERROR and EOS, and creates a
   * timer exactly when the message type's flag is set and none is pending;
   * the timer has the configured interval.
   */
  lemma ReactSpec(p: Policy, kind: MessageType, pending: Option<Timer>)
    ensures React(p, kind, pending).stopsPipe <==> Ends(kind)
    ensures React(p, kind, pending).created.Some? <==> Triggers(p, kind) && pending == None
    ensures React(p, kind, pending).created.Some? ==> React(p, kind, pending).created.value == Timer(p.intervalMs)
  {
  }

  /** A second identical message creates nothing: the watch is idempotent once a timer is pending. */
  lemma ReactIdempotent(p: Policy, kind: MessageType, pending: Option<Timer>)
    ensures var t := After(pending, React(p, kind, pending));
      && React(p, kind, t).created == None
      && After(t, React(p, kind, t)) == t
  {
  }

  /** The `timeout` field after the watch has handled `kinds` in order, no timer firing in between. */
  function PendingAfter(p: Policy, pending: Option<Timer>, kinds: seq<MessageType>): Option<Timer>
    decreases |kinds|
  {
    if kinds == [] then pending
    else PendingAfter(p, After(pending, React(p, kinds[0], pending)), kinds[1..])
  }

  /** The number of timers the watch creates while handling `kinds` in order. */
  function TimersCreated(p: Policy, pending: Option<Timer>, kinds: seq<MessageType>): nat
    decreases |kinds|
  {
    if kinds == [] then 0
    else
      var r := React(p, kinds[0], pending);
      (if r.created.Some? then 1 else 0) + TimersCreated(p, After(pending, r), kinds[1..])
  }

  /**
   * However many messages arrive, a pending timer is kept as it is, and
   * without one a timer is pending afterwards exactly when some message
   * triggers a restart; it then has the configured interval.
   */
  lemma {:induction false} PendingAfterSpec(p: Policy, pending: Option<Timer>, kinds: seq<MessageType>)
    ensures pending.Some? ==> PendingAfter(p, pending, kinds) == pending
    ensures pending.None? ==>
      (PendingAfter(p, pending, kinds).Some? <==> exists i :: 0 <= i < |kinds| && Triggers(p, kinds[i]))
    ensures pending.None? && PendingAfter(p, pending, kinds).Some? ==>
      PendingAfter(p, pending, kinds) == Some(Timer(p.intervalMs))
    decreases |kinds|
  {
    if kinds != [] {
      var next := After(pending, React(p, kinds[0], pending));
      PendingAfterSpec(p, next, kinds[1..]);
      assert forall i :: 1 <= i < |kinds| ==> kinds[1..][i - 1] == kinds[i];
      if pending.None? && !Triggers(p, kinds[0]) {
        assert (exists i :: 0 <= i < |kinds| && Triggers(p, kinds[i])) ==
               (exists i :: 0 <= i < |kinds[1..]| && Triggers(p, kinds[1..][i]));
      }
    }
  }

  /**
   * Repeated ERROR/EOS messages leave at most one timer: none is created while
   * one is pending, and at most one is created starting from none.
   */
  lemma {:induction false} AtMostOneTimer(p: Policy, pending: Option<Timer>, kinds: seq<MessageType>)
    ensures TimersCreated(p, pending, kinds) <= 1
    ensures pending.Some? ==> TimersCreated(p, pending, kinds) == 0
    ensures TimersCreated(p, pending, kinds) == 1 <==> pending.None? && PendingAfter(p, pending, kinds).Some?
    decreases |kinds|
  {
    if kinds != [] {
      var next := After(pending, React(p, kinds[0], pending));
      AtMostOneTimer(p, next, kinds[1..]);
      PendingAfterSpec(p, next, kinds[1..]);
    }
  }
}
