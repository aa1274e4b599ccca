/** The event protocol the adapter keeps: the load `started` and `finished`
    the adapter fires itself alternate, and so do its own run `started` and
    `finished`; forwarded runner records only occur inside a run, and a
    process is only spawned for an open session. Forwarded records are
    opaque: one may carry any `type`, a `finished` included, and the
    protocol says nothing about it. The protocol is a replay of the log
    from the initial state. */
module Protocol {
  import opened Results
  import opened Invocation
  import opened Events

  /** Which sessions are open: the `is_loading` and `is_running` guards. */
  datatype Session = Session(loading: bool, running: bool)

  const Idle := Session(false, false)

  /** One log entry; None when the entry breaks the protocol. */
  function Step(s: Session, e: Event): Option<Session>
  {
    match e
    case LoadStarted => if s.loading then None else Some(s.(loading := true))
    case LoadFinished(_) => if s.loading then Some(s.(loading := false)) else None
    case RunStarted(_) => if s.running then None else Some(s.(running := true))
    case RunEvent(_) => if s.running then Some(s) else None
    case RunFinished => if s.running then Some(s.(running := false)) else None
    case Spawn(p) =>
      if (SpawnedFor(p, Discover) && s.loading) || (SpawnedFor(p, Execute) && s.running) then Some(s) else None
    case Retire(_) => Some(s)
    case Notify(_) => Some(s)
    case Kill(_) => Some(s)
  }

  function ReplayFrom(st: Option<Session>, t: seq<Event>): Option<Session>
    decreases |t|
  {
    if t == [] || st.None? then st
    else ReplayFrom(Step(st.value, t[0]), t[1..])
  }

  /** The sessions a log leaves open, or None if it breaks the protocol. */
  function Replay(t: seq<Event>): Option<Session>
  {
    ReplayFrom(Some(Idle), t)
  }

  lemma {:induction false} ReplayAppend(st: Option<Session>, a: seq<Event>, b: seq<Event>)
    ensures ReplayFrom(st, a + b) == ReplayFrom(ReplayFrom(st, a), b)
    decreases |a|
  {
    if a == [] {
      assert a + b == b;
    } else if st.None? {
      assert ReplayFrom(None, b) == None;
    } else {
      assert (a + b)[0] == a[0] && (a + b)[1..] == a[1..] + b;
      ReplayAppend(Step(st.value, a[0]), a[1..], b);
    }
  }

  /** Notifications, retirements and kills never change the sessions. */
  predicate Neutral(e: Event)
  {
    e.Notify? || e.Retire? || e.Kill?
  }

  lemma {:induction false} NeutralKeeps(s: Session, t: seq<Event>)
    requires forall i :: 0 <= i < |t| ==> Neutral(t[i])
    ensures ReplayFrom(Some(s), t) == Some(s)
    decreases |t|
  {
    if t != [] {
      NeutralKeeps(s, t[1..]);
    }
  }

  /** One more neutral entry leaves a protocol-keeping log's sessions as they were. */
  lemma AppendNeutral(t: seq<Event>, s: Session, e: Event)
    requires Replay(t) == Some(s) && Neutral(e)
    ensures Replay(t + [e]) == Some(s)
  {
    ReplayAppend(Some(Idle), t, [e]);
    NeutralKeeps(s, [e]);
  }

  /** Completing a session closes it and leaves the other one as it was. */
  lemma CompletionCloses(s: Session, m: Mode, err: string, data: string, parse: Parser)
    requires if m == Discover then s.loading else s.running
    ensures ReplayFrom(Some(s), CompletionEvents(m, err, data, parse))
            == Some(if m == Discover then s.(loading := false) else s.(running := false))
  {
    if m == Discover {
      var outcome := DiscoveryOutcome(err, data, parse);
      var closed := s.(loading := false);
      ReplayAppend(Some(s), outcome, [Retire(Tests(RootScope))]);
      if |outcome| == 1 {
        assert ReplayFrom(Some(s), outcome) == ReplayFrom(Some(closed), outcome[1..]);
        assert outcome[1..] == [];
      } else {
        assert ReplayFrom(Some(s), outcome) == ReplayFrom(Some(s), outcome[1..]);
        assert ReplayFrom(Some(s), outcome[1..]) == ReplayFrom(Some(closed), outcome[2..]);
        assert outcome[2..] == [];
      }
      assert ReplayFrom(Some(s), outcome) == Some(closed);
    }
  }

  /** The four entries that open and close sessions. */
  datatype Bracket = LoadOpens | LoadCloses | RunOpens | RunCloses

  predicate IsBracket(e: Event, b: Bracket)
  {
    match b
    case LoadOpens => e.LoadStarted?
    case LoadCloses => e.LoadFinished?
    case RunOpens => e.RunStarted?
    case RunCloses => e.RunFinished?
  }

  function Count(t: seq<Event>, b: Bracket): nat
  {
    if t == [] then 0 else (if IsBracket(t[0], b) then 1 else 0) + Count(t[1..], b)
  }

  function Bit(b: bool): nat { if b then 1 else 0 }

  /** In a log that keeps the protocol, every load and every run that was
      started has finished, except the one still open. */
  lemma {:induction false} ReplayBalanced(s: Session, t: seq<Event>, s': Session)
    requires ReplayFrom(Some(s), t) == Some(s')
    ensures Count(t, LoadOpens) + Bit(s.loading) == Count(t, LoadCloses) + Bit(s'.loading)
    ensures Count(t, RunOpens) + Bit(s.running) == Count(t, RunCloses) + Bit(s'.running)
    decreases |t|
  {
    if t != [] {
      ReplayBalanced(Step(s, t[0]).value, t[1..], s');
    }
  }

  /** The same for a whole log of the adapter: the number of loads started
      is the number finished, plus one while a load is open. */
  lemma TraceBalanced(t: seq<Event>)
    requires Replay(t).Some?
    ensures Count(t, LoadOpens) == Count(t, LoadCloses) + Bit(Replay(t).value.loading)
    ensures Count(t, RunOpens) == Count(t, RunCloses) + Bit(Replay(t).value.running)
  {
    ReplayBalanced(Idle, t, Replay(t).value);
  }
}
