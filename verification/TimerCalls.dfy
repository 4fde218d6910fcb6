/** What the calls of the timer API write, and what comes of a timer that was marked by one. */
module TimerCalls {
  import opened TimerQueue
  import opened TimerLaws

  /** When a timer that a ctl call writes is due: at once if it is to be deleted or canceled, else after its
      delay, which is in ms unless the flag says otherwise; without a delay it is not armed. */
  ghost predicate DueAsWritten(e: Entry, arg: Timer, now: nat) {
    if arg.flags.canceled || arg.flags.delete then e.key == 0
    else if arg.delay < 0 then e.key == -1
    else if arg.flags.micro then e.key == now + arg.delay
    else e.key == now + 1000 * arg.delay
  }

  /** The entry is the argument, as the user may set it: neither ticking nor a query. */
  ghost predicate AsWritten(e: Entry, arg: Timer) {
    e.timer == arg.(flags := arg.flags.(tick := false, get := false))
  }

  /** A ctl call writes one entry, a new one for the id 0, or none; and a mere query writes nothing. */
  lemma CtlWrites(s: State, arg: Timer, now: nat, newId: TimerId)
    requires WellFormed(s)
    ensures var (s1, id) := Apply(s, Ctl(arg, now, newId));
            var query := arg.flags.get && arg.flags == Flags(false, false, false, false, false, false, true);
            if arg.id == 0 && newId != 0 && newId !in s.q then
              id == newId && s1.q.Keys == s.q.Keys + {newId} && s1.q - {id} == s.q
              && DueAsWritten(s1.q[id], arg, now) && AsWritten(s1.q[id], arg)
            else if arg.id in s.q && !query then
              id == arg.id && s1.q.Keys == s.q.Keys && s1.q - {id} == s.q - {id}
              && DueAsWritten(s1.q[id], arg, now) && AsWritten(s1.q[id], arg)
            else s1.q == s.q && id == if arg.id in s.q then arg.id else 0
  {
  }

  /** Canceling and deleting mark the entry, on top of the marks it has, and make it due at once. */
  lemma AddFlagsMarks(s: State, id: TimerId, canceled: bool, delete: bool)
    requires WellFormed(s) && id in s.q
    ensures var (s1, marked) := Apply(s, AddFlags(id, canceled, delete));
            && marked == id && s1.q.Keys == s.q.Keys && s1.q - {id} == s.q - {id} && s1.q[id].key == 0
            && (s1.q[id].timer.flags.canceled <==> canceled || s.q[id].timer.flags.canceled)
            && (s1.q[id].timer.flags.delete <==> delete || s.q[id].timer.flags.delete)
            && s1.q[id].timer == s.q[id].timer.(flags := s1.q[id].timer.flags)
            && s1.q[id].timer.flags ==
                 s.q[id].timer.flags.(canceled := s1.q[id].timer.flags.canceled, delete := s1.q[id].timer.flags.delete)
  {
  }

  /** The turn of a timer marked for deletion: it is gone, without a tick, after one status callback that is
      told of the deletion, and of a cancellation too if it was canceled. */
  lemma MarkedIsDeleted(s: State, id: TimerId, now: nat, rs: Reactions)
    requires Settled(s) && id in s.q && s.q[id].timer.flags.delete && Untouched(rs.gone.ops, id)
    ensures var o := TurnOf(s, id, now, rs);
            && id !in o.s.q
            && o.events == [Status(id, s.q[id].timer.onStatus, s.q[id].timer.flags.canceled, true)]
  {
    UntouchedStays(s.(active := id, q := s.q - {id}), rs.gone.ops, id);
    hide ApplyAll;
  }

  /** The turn of a timer that is canceled, and not to be deleted: its status callback comes first and is
      told so, and it does not tick. */
  lemma MarkedIsCanceled(s: State, id: TimerId, now: nat, rs: Reactions)
    requires Settled(s) && id in s.q && s.q[id].timer.flags.canceled && !s.q[id].timer.flags.delete
    ensures var o := TurnOf(s, id, now, rs);
            && |o.events| > 0 && o.events[0] == Status(id, s.q[id].timer.onStatus, true, false)
            && forall i :: 0 <= i < |o.events| ==> o.events[i].Status?
  {
    hide ApplyAll;
  }

  /** So a timer deleted by call, or set with DELETE, has no other callback but that one. */
  lemma DeletedByCall(s: State, op: Op, id: TimerId, now: nat, rs: Reactions)
    requires Settled(s) && Untouched(rs.gone.ops, id)
    requires (op.AddFlags? && op.delete && op.id == id && id in s.q)
             || (op.Ctl? && op.arg.flags.delete && Apply(s, op).1 == id != 0)
    ensures var s1 := Apply(s, op).0;
            && id in s1.q && s1.q[id].key == 0
            && var o := TurnOf(s1, id, now, rs);
               id !in o.s.q && |o.events| == 1 && o.events[0].Status? && o.events[0].deleted
               && (op.Ctl? ==> o.events == [Status(id, op.arg.onStatus, op.arg.flags.canceled, true)])
  {
    ApplyKeeps(s, op);
    if op.Ctl? {
      CtlWrites(s, op.arg, op.now, op.newId);
    } else {
      AddFlagsMarks(s, id, op.canceled, op.delete);
    }
    MarkedIsDeleted(Apply(s, op).0, id, now, rs);
    hide ApplyAll, TurnOf;
  }

  /** The turn of a timer without an on_tick callback is that of one whose callback does nothing. */
  lemma NullTick(s: State, id: TimerId, now: nat, rs: Reactions)
    requires Settled(s) && id in s.q && !HasStatus(s.q[id].timer) && s.q[id].timer.onTick == NULL
    ensures var idle := Reaction([], Ticking(s.q[id].timer.(id := id)));
            TurnOf(s, id, now, rs) == TurnOf(s, id, now, rs.(tick := idle))
  {
    hide ApplyAll;
  }
}
