/** The Redis key names (`app/keys.py`). */
module Keys {
  function EventsList(session: string): string { "task_events:" + session }
  function Snapshot(session: string): string { "task_progress:" + session }
  function Channel(session: string): string { "task_channel:" + session }
  function Sequence(session: string): string { "task_seq:" + session }
  function IdempotencyLock(session: string): string { "task_lock:" + session }
  function CancelFlag(session: string): string { "task_cancel:" + session }

  /** No two sessions share a key, and no two of a session's keys coincide. */
  lemma KeysDisjoint(a: string, b: string)
    ensures EventsList(a) == EventsList(b) <==> a == b
    ensures Snapshot(a) == Snapshot(b) <==> a == b
    ensures Channel(a) == Channel(b) <==> a == b
    ensures Sequence(a) == Sequence(b) <==> a == b
    ensures CancelFlag(a) == CancelFlag(b) <==> a == b
    ensures IdempotencyLock(a) == IdempotencyLock(b) <==> a == b
    ensures IdempotencyLock(a) != EventsList(b) && IdempotencyLock(a) != Snapshot(b)
    ensures IdempotencyLock(a) != Sequence(b) && IdempotencyLock(a) != CancelFlag(b)
    ensures EventsList(a) != CancelFlag(b) && Snapshot(a) != CancelFlag(b) && Sequence(a) != CancelFlag(b)
    ensures EventsList(a) != Snapshot(b) && EventsList(a) != Sequence(b) && Snapshot(a) != Sequence(b)
  {
    assert EventsList(a)[12..] == a && EventsList(b)[12..] == b;
    assert Snapshot(a)[14..] == a && Snapshot(b)[14..] == b;
    assert Channel(a)[13..] == a && Channel(b)[13..] == b;
    assert Sequence(a)[9..] == a && Sequence(b)[9..] == b;
    assert IdempotencyLock(a)[10..] == a && IdempotencyLock(b)[10..] == b && IdempotencyLock(a)[5] == 'l';
    assert CancelFlag(a)[12..] == a && CancelFlag(b)[12..] == b && CancelFlag(b)[5] == 'c';
    assert EventsList(a)[5] == 'e' && Snapshot(a)[5] == 'p' && Sequence(a)[5] == 's';
    assert EventsList(b)[5] == 'e' && Snapshot(b)[5] == 'p' && Sequence(b)[5] == 's';
  }
}
