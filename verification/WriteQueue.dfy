/**
 * AsyncWriteQueue (include/cppmcp/async_write_queue.hpp) at the granularity of
 * its lock sections. The decision to arm, the arm_write call, the outstanding
 * do_write and the pending on_error_ call are separate, so other threads may
 * run between any two of them.
 */
module WriteQueue {
  import opened Wrappers

  datatype Policy = DropNewest | CloseOnError

  datatype Queue = Queue(items: seq<string>, bytes: int, writing: bool, active: bool, cap: nat, policy: Policy)

  function Size(items: seq<string>): nat {
    if items == [] then 0 else |items[0]| + Size(items[1..])
  }

  // ------------------------------------------------------------ lock sections

  datatype EnqueueResult = Rejected | Accepted(arm: bool) | Overflowed

  predicate Overflows(q: Queue, data: string) {
    q.cap > 0 && q.bytes + |data| > q.cap
  }

  function EnqueueSection(q: Queue, data: string): (Queue, EnqueueResult) {
    if !q.active then (q, Rejected)
    else if Overflows(q, data) then
      if q.policy == CloseOnError then (q.(active := false, writing := false), Overflowed)
      else (q, Rejected)
    else (q.(bytes := q.bytes + |data|, items := q.items + [data], writing := true), Accepted(!q.writing))
  }

  function ShutdownSection(q: Queue): Queue {
    q.(active := false, bytes := 0, items := [])
  }

  function ArmSection(q: Queue): (Queue, Option<string>) {
    if !q.active || q.items == [] then (q.(writing := false), None)
    else (q.(bytes := q.bytes - |q.items[0]|, items := q.items[1..]), Some(q.items[0]))
  }

  datatype CompleteResult = Idle | Rearm | SignalError

  function CompleteSection(q: Queue, ok: bool): (Queue, CompleteResult) {
    if !ok then
      (q.(active := false, writing := false), if q.active then SignalError else Idle)
    else if q.active && q.items != [] then (q, Rearm)
    else (q.(writing := false), Idle)
  }

  class AsyncWriteQueue {
    const cap: nat
    const policy: Policy
    var items: seq<string>
    var bytes: int
    var writing: bool
    var active: bool

    ghost function View(): Queue
      reads this
    {
      Queue(items, bytes, writing, active, cap, policy)
    }

    constructor (cap: nat, policy: Policy)
      ensures View() == Queue([], 0, false, true, cap, policy)
    {
      this.cap, this.policy := cap, policy;
      items, bytes, writing, active := [], 0, false, true;
    }

    method EnqueueLocked(data: string) returns (r: EnqueueResult)
      modifies this
      ensures (View(), r) == EnqueueSection(old(View()), data)
    {
      var arm, overflowClose := false, false;
      if !active {
        return Rejected;
      }
      if cap > 0 && bytes + |data| > cap {
        if policy == CloseOnError {
          active := false;
          writing := false;
          overflowClose := true;
        } else {
          return Rejected;
        }
      } else {
        bytes := bytes + |data|;
        items := items + [data];
        if !writing {
          writing := true;
          arm := true;
        }
      }
      r := if overflowClose then Overflowed else Accepted(arm);
    }

    method ShutdownLocked() returns (discarded: seq<string>)
      modifies this
      ensures View() == ShutdownSection(old(View())) && discarded == old(items)
    {
      active := false;
      bytes := 0;
      items, discarded := [], items;
    }

    method ArmLocked() returns (buffer: Option<string>)
      modifies this
      ensures (View(), buffer) == ArmSection(old(View()))
    {
      if !active || items == [] {
        writing := false;
        return None;
      }
      bytes := bytes - |items[0]|;
      buffer := Some(items[0]);
      items := items[1..];
    }

    method CompleteLocked(ok: bool) returns (r: CompleteResult)
      modifies this
      ensures (View(), r) == CompleteSection(old(View()), ok)
    {
      if !ok {
        var wasActive := active;
        active := false;
        writing := false;
        return if wasActive then SignalError else Idle;
      }
      if active && items != [] {
        r := Rearm;
      } else {
        writing := false;
        r := Idle;
      }
    }
  }

  // -------------------------------------------------------- all interleavings

  /** The queue with everything that is under way around it: threads about to
      call arm_write, outstanding writes, threads about to call on_error_. */
  datatype System = System(
    q: Queue, arming: nat, inflight: nat, errorsDue: nat, errorsFired: nat,
    accepted: seq<string>, issued: seq<string>, closed: bool)

  datatype Step = Enqueue(data: string) | Arm | Complete(ok: bool) | Shutdown | FireError

  function Start(cap: nat, policy: Policy): System {
    System(Queue([], 0, false, true, cap, policy), 0, 0, 0, 0, [], [], false)
  }

  function Apply(s: System, e: Step): System {
    match e
    case Enqueue(data) =>
      (var (q, r) := EnqueueSection(s.q, data);
       match r
       case Rejected => s.(q := q)
       case Accepted(arm) =>
         s.(q := q, accepted := s.accepted + [data], arming := s.arming + if arm then 1 else 0)
       case Overflowed => s.(q := q, errorsDue := s.errorsDue + 1))
    case Arm =>
      if s.arming == 0 then s
      else
        (var (q, buffer) := ArmSection(s.q);
         match buffer
         case None => s.(q := q, arming := s.arming - 1)
         case Some(data) =>
           s.(q := q, arming := s.arming - 1, inflight := s.inflight + 1, issued := s.issued + [data]))
    case Complete(ok) =>
      if s.inflight == 0 then s
      else
        (var (q, r) := CompleteSection(s.q, ok);
         var s' := s.(q := q, inflight := s.inflight - 1);
         match r
         case Idle => s'
         case Rearm => s'.(arming := s.arming + 1)
         case SignalError => s'.(errorsDue := s.errorsDue + 1))
    case Shutdown => s.(q := ShutdownSection(s.q), closed := true)
    case FireError =>
      if s.errorsDue == 0 then s
      else s.(errorsDue := s.errorsDue - 1, errorsFired := s.errorsFired + 1)
  }

  function Run(s: System, es: seq<Step>): System
    decreases |es|
  {
    if es == [] then s else Run(Apply(s, es[0]), es[1..])
  }

  /** At most one write is outstanding or about to be armed, and an active queue
      with items has one. */
  ghost predicate SingleFlight(s: System) {
    && s.arming + s.inflight <= 1
    && (s.q.active && s.q.items != [] ==> s.arming + s.inflight == 1)
    && (s.q.active ==> (s.q.writing <==> s.arming + s.inflight == 1))
    && (s.q.active && s.arming == 1 ==> s.q.items != [])
  }

  /** Bytes match the items and respect the cap; items leave in the order they
      were accepted and none is lost before shutdown. */
  ghost predicate Conserved(s: System) {
    && s.q.bytes == Size(s.q.items)
    && (s.q.cap > 0 ==> s.q.bytes <= s.q.cap)
    && (!s.closed ==> s.issued + s.q.items == s.accepted)
    && (s.closed ==> s.issued <= s.accepted && s.q.items == [] && !s.q.active)
  }

  ghost predicate ErrorOnce(s: System) {
    && s.errorsDue + s.errorsFired <= 1
    && (s.q.active ==> s.errorsDue + s.errorsFired == 0)
    && (!s.q.active ==> s.closed || s.errorsDue + s.errorsFired == 1)
  }

  ghost predicate Sound(s: System) {
    SingleFlight(s) && Conserved(s) && ErrorOnce(s)
  }

  lemma {:induction false} SizeAppend(items: seq<string>, data: string)
    ensures Size(items + [data]) == Size(items) + |data|
  {
    if items == [] {
      assert items + [data] == [data];
    } else {
      assert (items + [data])[1..] == items[1..] + [data];
      SizeAppend(items[1..], data);
    }
  }

  lemma StepSound(s: System, e: Step)
    requires Sound(s)
    ensures Sound(Apply(s, e))
  {
    match e
    case Enqueue(data) => EnqueueSound(s, data);
    case Arm => ArmSound(s);
    case Complete(ok) =>
    case Shutdown =>
    case FireError =>
  }

  lemma EnqueueSound(s: System, data: string)
    requires Sound(s)
    ensures Sound(Apply(s, Enqueue(data)))
  {
    SizeAppend(s.q.items, data);
    assert s.issued + (s.q.items + [data]) == (s.issued + s.q.items) + [data];
  }

  lemma ArmSound(s: System)
    requires Sound(s)
    ensures Sound(Apply(s, Arm))
  {
    if s.arming != 0 && s.q.active && s.q.items != [] {
      assert s.issued + s.q.items == (s.issued + [s.q.items[0]]) + s.q.items[1..];
    }
  }

  /** Single flight, no lost wakeup, byte accounting, FIFO and error-once, in
      every interleaving of enqueuers, completions and shutdowns, under both
      overflow policies. */
  lemma {:induction false} RunSound(s: System, es: seq<Step>)
    requires Sound(s)
    ensures Sound(Run(s, es))
    decreases |es|
  {
    if es != [] {
      StepSound(s, es[0]);
      RunSound(Apply(s, es[0]), es[1..]);
    }
  }

  lemma EveryInterleaving(cap: nat, policy: Policy, es: seq<Step>)
    ensures Sound(Run(Start(cap, policy), es))
  {
    RunSound(Start(cap, policy), es);
  }

  /** An item is taken exactly when the queue is open and the bytes queued with it
      stay within the cap; otherwise DropNewest changes nothing, and CloseOnError
      closes an open queue, with the items in it, and decides one error call. */
  lemma OverflowExact(s: System, data: string)
    requires Sound(s)
    ensures var s' := Apply(s, Enqueue(data));
            if s.q.active && (s.q.cap == 0 || Size(s.q.items) + |data| <= s.q.cap) then
              && s'.accepted == s.accepted + [data] && s'.q.items == s.q.items + [data] && s'.q.active
              && s'.errorsDue == s.errorsDue
            else if s.q.active && s.q.policy == CloseOnError then
              s' == s.(q := s.q.(active := false, writing := false), errorsDue := 1)
            else s' == s
  {
  }

  /** A shutdown discards what is queued and leaves the write under way alone. */
  lemma ShutdownExact(s: System)
    requires Sound(s)
    ensures var s' := Apply(s, Shutdown);
            && s'.closed && !s'.q.active && s'.q.items == [] && s'.q.writing == s.q.writing
            && s'.issued == s.issued && s'.inflight == s.inflight && s'.errorsDue == s.errorsDue
  {
  }

  // ------------------------------------------------- repeated enqueues of one item

  /** enqueue as its caller sees it: the section and, when told to, arm_write. */
  function EnqueueAndArm(q: Queue, data: string): (Queue, EnqueueResult) {
    var (q', r) := EnqueueSection(q, data);
    (if r == Accepted(true) then ArmSection(q').0 else q', r)
  }

  predicate Takes(q: Queue, data: string) {
    q.active && !Overflows(q, data)
  }

  /** The same on the whole system, with no other thread's section in between. */
  function EnqueueCall(s: System, data: string): (s': System)
    ensures s'.q == EnqueueAndArm(s.q, data).0
    ensures s'.accepted == if Takes(s.q, data) then s.accepted + [data] else s.accepted
  {
    var s1 := Apply(s, Enqueue(data));
    if s1.arming > s.arming then Apply(s1, Arm) else s1
  }

  lemma EnqueueCallSound(s: System, data: string)
    requires Sound(s)
    ensures Sound(EnqueueCall(s, data))
  {
    StepSound(s, Enqueue(data));
    StepSound(Apply(s, Enqueue(data)), Arm);
  }

  /** The size of the item that the first arm_write would take out. */
  function HeadSize(q: Queue, data: string): nat {
    if q.items == [] then |data| else |q.items[0]|
  }

  /** There is room for n copies of the data: an idle queue hands its first item
      to the socket as soon as it accepts one, a writing queue keeps them all. */
  predicate Fits(q: Queue, data: string, n: nat) {
    n == 0 || q.cap == 0
    || (q.bytes + |data| <= q.cap && q.bytes + n * |data| - (if q.writing then 0 else HeadSize(q, data)) <= q.cap)
  }

  lemma FitsNext(q: Queue, data: string, n: nat)
    requires q.active
    ensures Fits(q, data, n + 1) <==> !Overflows(q, data) && Fits(EnqueueAndArm(q, data).0, data, n)
  {
    var q' := EnqueueAndArm(q, data).0;
    assert (n + 1) * |data| == n * |data| + |data|;
    if n > 0 {
      assert n * |data| == (n - 1) * |data| + |data|;
      assert (n - 1) * |data| >= 0;
    }
    assert !Overflows(q, data) && !q.writing ==> q'.bytes == q.bytes + |data| - HeadSize(q, data);
  }

  // ----------------------------------------------------------- after shutdown

  /** Once shut down, nothing more is accepted or issued and no further error
      call is decided. */
  lemma {:induction false} AfterShutdown(s: System, es: seq<Step>)
    requires Sound(s) && s.closed
    ensures var s' := Run(s, es);
            && s'.closed && s'.accepted == s.accepted && s'.issued == s.issued
            && s'.errorsDue + s'.errorsFired == s.errorsDue + s.errorsFired
    decreases |es|
  {
    if es != [] {
      StepSound(s, es[0]);
      AfterShutdown(Apply(s, es[0]), es[1..]);
    }
  }

  /** The call itself is made outside the lock: on_error_ can still run after a
      shutdown if and only if it had been decided before. */
  lemma LateErrorExact(s: System)
    requires Sound(s) && s.closed
    ensures (exists es :: Run(s, es).errorsFired > s.errorsFired) <==> s.errorsDue > 0
  {
    if s.errorsDue > 0 {
      assert Run(s, [FireError]) == Run(Apply(s, FireError), []) by { assert [FireError][1..] == []; }
      assert Run(s, [FireError]).errorsFired > s.errorsFired;
    } else {
      forall es ensures Run(s, es).errorsFired <= s.errorsFired {
        AfterShutdown(s, es);
      }
    }
  }

  lemma LateErrorHappens() returns (es: seq<Step>)
    ensures var s := Run(Start(1, CloseOnError), es); s.closed && s.errorsDue == 1
  {
    es := [Enqueue("ab"), Shutdown];
    var s := Start(1, CloseOnError);
    assert es[1..] == [Shutdown] && [Shutdown][1..] == [];
    assert Run(s, es) == Run(Apply(s, Enqueue("ab")), [Shutdown]);
    assert Run(Apply(s, Enqueue("ab")), [Shutdown]) == Run(Apply(Apply(s, Enqueue("ab")), Shutdown), []);
  }

  // ------------------------------------------------------------------ progress

  /** The turns an active queue still needs: arm if armed, complete, repeat. */
  function DrainSchedule(n: nat): seq<Step> {
    if n == 0 then [Complete(true)] else [Complete(true), Arm] + DrainSchedule(n - 1)
  }

  lemma {:induction false} DrainFromFlight(s: System)
    requires Sound(s) && s.q.active && s.inflight == 1
    ensures var s' := Run(s, DrainSchedule(|s.q.items|));
            s'.q.items == [] && s'.q.active && s'.issued == s.accepted && s'.arming + s'.inflight == 0
    decreases |s.q.items|
  {
    var es := DrainSchedule(|s.q.items|);
    var s1 := Apply(s, Complete(true));
    StepSound(s, Complete(true));
    if s.q.items == [] {
      assert Run(s, es) == Run(s1, []);
      assert s.issued + [] == s.issued;
    } else {
      var rest := DrainSchedule(|s.q.items| - 1);
      assert es[1..] == [Arm] + rest && ([Arm] + rest)[1..] == rest;
      var s2 := Apply(s1, Arm);
      StepSound(s1, Arm);
      assert Run(s, es) == Run(s1, [Arm] + rest) == Run(s2, rest);
      DrainFromFlight(s2);
    }
  }

  /** No wakeup is ever missing: from every sound state with an active queue,
      successful completions alone write out everything accepted. */
  lemma Drains(s: System) returns (es: seq<Step>)
    requires Sound(s) && s.q.active
    ensures forall i :: 0 <= i < |es| ==> es[i] == Arm || es[i] == Complete(true)
    ensures var s' := Run(s, es); s'.q.items == [] && s'.issued == s.accepted
  {
    if s.inflight == 1 {
      es := DrainSchedule(|s.q.items|);
      ScheduleShape(|s.q.items|);
      DrainFromFlight(s);
    } else if s.arming == 1 {
      var s1 := Apply(s, Arm);
      StepSound(s, Arm);
      es := [Arm] + DrainSchedule(|s1.q.items|);
      ScheduleShape(|s1.q.items|);
      assert es[1..] == DrainSchedule(|s1.q.items|);
      DrainFromFlight(s1);
    } else {
      es := [];
      assert s.issued + [] == s.issued;
    }
  }

  lemma {:induction false} ScheduleShape(n: nat)
    ensures forall i :: 0 <= i < |DrainSchedule(n)| ==> DrainSchedule(n)[i] in {Arm, Complete(true)}
  {
    if n > 0 {
      ScheduleShape(n - 1);
    }
  }
}
