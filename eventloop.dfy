/**
 * The single-threaded event loop of pysocks5/eventloop.py: three
 * descriptor-to-callback tables (read, write, error interest), a list of
 * timers, and the two halves of one pass of `run` — dispatching the
 * descriptors `select` reported ready, then scanning the timers. The clock
 * is an integer argument, the ready sets are arbitrary arguments, and the
 * effect of a socket callback on the tables is a function argument.
 */
module Events {
  type Fd = nat

  /** `EV_READ`, `EV_WRITE`, `EV_ERROR`, in the order `run` visits them. */
  datatype Kind = Read | Write | Error

  function Rank(k: Kind): nat
  {
    match k
    case Read => 0
    case Write => 1
    case Error => 2
  }

  const Kinds: seq<Kind> := [Read, Write, Error]

  /**
   * What a registration calls: one of the three handlers of the socket that
   * owns the descriptor, or a task identified by a tag (a timer's callback).
   */
  datatype Callback = SocketRead | SocketWrite | SocketError | Task(tag: nat)

  /** `event_callbacks`: one descriptor-to-callback map per kind. */
  datatype Tables = Tables(read: map<Fd, Callback>, write: map<Fd, Callback>, error: map<Fd, Callback>)
  {
    function Of(k: Kind): map<Fd, Callback>
    {
      match k
      case Read => read
      case Write => write
      case Error => error
    }

    /** `any(event_callbacks)` is false. */
    predicate IsEmpty()
    {
      read == map[] && write == map[] && error == map[]
    }

    /** The tables with `(k, fd)` set to `cb`, whether or not it was set before. */
    function With(k: Kind, fd: Fd, cb: Callback): (t: Tables)
      ensures t.Of(k) == Of(k)[fd := cb]
      ensures forall k' :: k' != k ==> t.Of(k') == Of(k')
    {
      match k
      case Read => this.(read := read[fd := cb])
      case Write => this.(write := write[fd := cb])
      case Error => this.(error := error[fd := cb])
    }

    /** The tables without any registration of `fd`. */
    function WithoutAll(fd: Fd): (t: Tables)
      ensures forall k :: t.Of(k) == Of(k) - {fd}
      ensures Unregistered(t, fd)
    {
      Tables(read - {fd}, write - {fd}, error - {fd})
    }

    /** The tables without `(k, fd)`; the same tables when it was absent. */
    function Without(k: Kind, fd: Fd): (t: Tables)
      ensures t.Of(k) == Of(k) - {fd}
      ensures forall k' :: k' != k ==> t.Of(k') == Of(k')
    {
      match k
      case Read => this.(read := read - {fd})
      case Write => this.(write := write - {fd})
      case Error => this.(error := error - {fd})
    }
  }

  /** `t` and `u` register `x` for the same kinds, with the same callbacks. */
  predicate SameAt(t: Tables, u: Tables, x: Fd)
  {
    && (x in t.read <==> x in u.read) && (x in t.read ==> t.read[x] == u.read[x])
    && (x in t.write <==> x in u.write) && (x in t.write ==> t.write[x] == u.write[x])
    && (x in t.error <==> x in u.error) && (x in t.error ==> t.error[x] == u.error[x])
  }

  /** `u` registers every descriptor other than `fd` exactly as `t` does. */
  ghost predicate SameElsewhere(t: Tables, u: Tables, fd: Fd)
  {
    forall x :: x != fd ==> SameAt(t, u, x)
  }

  /** Dropping every registration of `fd` changes no other descriptor's, and dropping them twice is dropping them once. */
  lemma DroppedElsewhere(t: Tables, fd: Fd)
    ensures SameElsewhere(t, t.WithoutAll(fd), fd)
    ensures Unregistered(t.WithoutAll(fd), fd)
    ensures t.WithoutAll(fd).WithoutAll(fd) == t.WithoutAll(fd)
  {
    var u := t.WithoutAll(fd);
    assert u.WithoutAll(fd).read == u.read && u.WithoutAll(fd).write == u.write && u.WithoutAll(fd).error == u.error;
  }

  /** Dropping the read registration of `fd` changes no other descriptor's. */
  lemma UnreadElsewhere(t: Tables, fd: Fd)
    ensures SameElsewhere(t, t.Without(Read, fd), fd)
  {
  }

  /** Registering `fd` for all three kinds changes no other descriptor's registrations. */
  lemma AddedElsewhere(t: Tables, fd: Fd, r: Callback, w: Callback, e: Callback)
    ensures SameElsewhere(t, t.With(Read, fd, r).With(Write, fd, w).With(Error, fd, e), fd)
  {
  }

  /** Two tables that agree kind by kind are the same tables. */
  lemma TablesExt(s: Tables, t: Tables)
    requires forall k :: s.Of(k) == t.Of(k)
    ensures s == t
  {
    assert s.Of(Read) == t.Of(Read) && s.Of(Write) == t.Of(Write) && s.Of(Error) == t.Of(Error);
  }

  // ------------------------------------------------------------------ timers

  /** An entry of `timeout_callbacks`: the deadline and what to call. */
  datatype Timer = Timer(deadline: int, callback: Callback)

  /** The timers a scan at time `now` fires, in list order. */
  function Due(ts: seq<Timer>, now: int): seq<Timer>
  {
    if ts == [] then []
    else if now >= ts[0].deadline then [ts[0]] + Due(ts[1..], now)
    else Due(ts[1..], now)
  }

  /** The timers a scan at time `now` keeps, in list order: `unarrived`. */
  function Undue(ts: seq<Timer>, now: int): seq<Timer>
  {
    if ts == [] then []
    else if now >= ts[0].deadline then Undue(ts[1..], now)
    else [ts[0]] + Undue(ts[1..], now)
  }

  function Callbacks(ts: seq<Timer>): seq<Callback>
  {
    if ts == [] then [] else [ts[0].callback] + Callbacks(ts[1..])
  }

  /** A scan of `ts + [t]` is the scan of `ts` followed by the verdict on `t`. */
  lemma {:induction false} ScanAppend(ts: seq<Timer>, t: Timer, now: int)
    ensures Due(ts + [t], now) == Due(ts, now) + (if now >= t.deadline then [t] else [])
    ensures Undue(ts + [t], now) == Undue(ts, now) + (if now >= t.deadline then [] else [t])
  {
    if ts == [] {
      assert [t][1..] == [];
      assert ts + [t] == [t];
    } else {
      assert (ts + [t])[1..] == ts[1..] + [t];
      ScanAppend(ts[1..], t, now);
    }
  }

  lemma {:induction false} CallbacksAppend(ts: seq<Timer>, t: Timer)
    ensures Callbacks(ts + [t]) == Callbacks(ts) + [t.callback]
  {
    if ts == [] {
      assert [t][1..] == [];
      assert ts + [t] == [t];
    } else {
      assert (ts + [t])[1..] == ts[1..] + [t];
      CallbacksAppend(ts[1..], t);
    }
  }

  /** The loop step of a scan: the next timer is either fired or kept. */
  lemma ScanStep(ts: seq<Timer>, t: Timer, now: int)
    ensures now >= t.deadline ==> Callbacks(Due(ts + [t], now)) == Callbacks(Due(ts, now)) + [t.callback]
                                  && Undue(ts + [t], now) == Undue(ts, now)
    ensures now < t.deadline ==> Callbacks(Due(ts + [t], now)) == Callbacks(Due(ts, now))
                                 && Undue(ts + [t], now) == Undue(ts, now) + [t]
  {
    ScanAppend(ts, t, now);
    if now >= t.deadline {
      CallbacksAppend(Due(ts, now), t);
    } else {
      assert Due(ts + [t], now) == Due(ts, now);
    }
  }

  /**
   * A scan partitions the timers: every fired timer is due, every kept
   * timer is not, and together they are exactly the scanned timers.
   */
  lemma {:induction false} ScanPartitions(ts: seq<Timer>, now: int)
    ensures forall t :: t in Due(ts, now) ==> now >= t.deadline
    ensures forall t :: t in Undue(ts, now) ==> now < t.deadline
    ensures multiset(Due(ts, now)) + multiset(Undue(ts, now)) == multiset(ts)
  {
    if ts != [] {
      ScanPartitions(ts[1..], now);
      assert ts == [ts[0]] + ts[1..];
    }
  }

  /** Scanning at `a` and then at a later `b` keeps what one scan at `b` keeps. */
  lemma {:induction false} ScanLater(ts: seq<Timer>, a: int, b: int)
    requires a <= b
    ensures Undue(Undue(ts, a), b) == Undue(ts, b)
  {
    if ts != [] {
      ScanLater(ts[1..], a, b);
      if a < ts[0].deadline {
        assert ([ts[0]] + Undue(ts[1..], a))[1..] == Undue(ts[1..], a);
      }
    }
  }

  // ---------------------------------------------------------------- dispatch

  /** The three lists `select` returns: descriptors ready to read, to write, in error. */
  datatype Ready = Ready(read: seq<Fd>, write: seq<Fd>, error: seq<Fd>)
  {
    function Of(k: Kind): seq<Fd>
    {
      match k
      case Read => read
      case Write => write
      case Error => error
    }
  }

  /** One `(kind, fd)` position that the dispatch loops visit. */
  datatype Slot = Slot(kind: Kind, fd: Fd)

  /** A callback that did run, with the registration it ran for. */
  datatype Firing = Firing(kind: Kind, fd: Fd, callback: Callback)

  /** The effect of running a callback on the tables (unregistering, registering). */
  type Reaction = (Tables, Firing) -> Tables

  function SlotsOf(k: Kind, fds: seq<Fd>): (r: seq<Slot>)
    ensures |r| == |fds| && forall i :: 0 <= i < |fds| ==> r[i] == Slot(k, fds[i])
  {
    seq(|fds|, i requires 0 <= i < |fds| => Slot(k, fds[i]))
  }

  /** The slots of the kinds before position `e` of `Kinds`, in visiting order. */
  function SlotsBefore(ready: Ready, e: nat): seq<Slot>
    requires e <= |Kinds|
  {
    if e == 0 then [] else SlotsBefore(ready, e - 1) + SlotsOf(Kinds[e - 1], ready.Of(Kinds[e - 1]))
  }

  /** All slots of one dispatch: the ready reads, then writes, then errors. */
  function Slots(ready: Ready): seq<Slot>
  {
    SlotsBefore(ready, |Kinds|)
  }

  datatype Outcome = Outcome(tables: Tables, fired: seq<Firing>)

  /**
   * Visiting `slots` in order: a slot's callback runs only if its descriptor
   * is registered for its kind at that moment, and runs with the tables as
   * the earlier callbacks left them.
   */
  function Dispatched(t: Tables, slots: seq<Slot>, react: Reaction): Outcome
    decreases |slots|
  {
    if slots == [] then Outcome(t, [])
    else
      var s := slots[0];
      if s.fd in t.Of(s.kind) then
        var f := Firing(s.kind, s.fd, t.Of(s.kind)[s.fd]);
        var o := Dispatched(react(t, f), slots[1..], react);
        Outcome(o.tables, [f] + o.fired)
      else
        Dispatched(t, slots[1..], react)
  }

  /** Dispatching `a + b` is dispatching `a` and then `b` from where `a` left the tables. */
  lemma {:induction false} DispatchedAppend(t: Tables, a: seq<Slot>, b: seq<Slot>, react: Reaction)
    ensures var first := Dispatched(t, a, react);
            var second := Dispatched(first.tables, b, react);
            Dispatched(t, a + b, react) == Outcome(second.tables, first.fired + second.fired)
    decreases |a|
  {
    if a == [] {
      assert a + b == b;
    } else {
      assert (a + b)[1..] == a[1..] + b;
      var s := a[0];
      if s.fd in t.Of(s.kind) {
        var f := Firing(s.kind, s.fd, t.Of(s.kind)[s.fd]);
        DispatchedAppend(react(t, f), a[1..], b, react);
      } else {
        DispatchedAppend(t, a[1..], b, react);
      }
    }
  }

  /** The loop step of a dispatch: the next slot fires iff its registration is present. */
  lemma DispatchStep(t0: Tables, before: seq<Slot>, s: Slot, react: Reaction, t: Tables, fired: seq<Firing>)
    requires Dispatched(t0, before, react) == Outcome(t, fired)
    ensures s.fd in t.Of(s.kind) ==>
              var f := Firing(s.kind, s.fd, t.Of(s.kind)[s.fd]);
              Dispatched(t0, before + [s], react) == Outcome(react(t, f), fired + [f])
    ensures s.fd !in t.Of(s.kind) ==> Dispatched(t0, before + [s], react) == Outcome(t, fired)
  {
    DispatchedAppend(t0, before, [s], react);
    assert [s][1..] == [];
  }

  /** Only ready descriptors fire, each for a kind it was reported ready for. */
  lemma {:induction false} DispatchedFromSlots(t: Tables, slots: seq<Slot>, react: Reaction)
    ensures forall f :: f in Dispatched(t, slots, react).fired ==> Slot(f.kind, f.fd) in slots
    decreases |slots|
  {
    if slots != [] {
      var s := slots[0];
      if s.fd in t.Of(s.kind) {
        var f := Firing(s.kind, s.fd, t.Of(s.kind)[s.fd]);
        DispatchedFromSlots(react(t, f), slots[1..], react);
      } else {
        DispatchedFromSlots(t, slots[1..], react);
      }
    }
  }

  predicate KindsInOrder(fired: seq<Firing>)
  {
    forall i, j :: 0 <= i < j < |fired| ==> Rank(fired[i].kind) <= Rank(fired[j].kind)
  }

  predicate SlotsInOrder(slots: seq<Slot>)
  {
    forall i, j :: 0 <= i < j < |slots| ==> Rank(slots[i].kind) <= Rank(slots[j].kind)
  }

  /** Slots visited in kind order give firings in kind order. */
  lemma {:induction false} DispatchedInOrder(t: Tables, slots: seq<Slot>, react: Reaction)
    requires SlotsInOrder(slots)
    ensures KindsInOrder(Dispatched(t, slots, react).fired)
    decreases |slots|
  {
    if slots != [] {
      var s := slots[0];
      assert SlotsInOrder(slots[1..]);
      if s.fd in t.Of(s.kind) {
        var f := Firing(s.kind, s.fd, t.Of(s.kind)[s.fd]);
        var o := Dispatched(react(t, f), slots[1..], react);
        DispatchedInOrder(react(t, f), slots[1..], react);
        DispatchedFromSlots(react(t, f), slots[1..], react);
        forall g | g in o.fired
          ensures Rank(s.kind) <= Rank(g.kind)
        {
          var j :| 0 <= j < |slots[1..]| && slots[1..][j] == Slot(g.kind, g.fd);
          assert slots[j + 1] == slots[1..][j];
        }
        var fired := [f] + o.fired;
        forall i, j | 0 <= i < j < |fired|
          ensures Rank(fired[i].kind) <= Rank(fired[j].kind)
        {
          if i == 0 {
            assert fired[j] == o.fired[j - 1];
          } else {
            assert fired[i] == o.fired[i - 1] && fired[j] == o.fired[j - 1];
          }
        }
      } else {
        DispatchedInOrder(t, slots[1..], react);
      }
    }
  }

  /** The slots of a dispatch come in the order read, write, error. */
  lemma SlotsOrdered(ready: Ready)
    ensures SlotsInOrder(Slots(ready))
  {
    var r, w, x := SlotsOf(Read, ready.read), SlotsOf(Write, ready.write), SlotsOf(Error, ready.error);
    assert SlotsBefore(ready, 1) == [] + r;
    assert SlotsBefore(ready, 2) == [] + r + w;
    assert Slots(ready) == [] + r + w + x;
    var all := Slots(ready);
    forall i, j | 0 <= i < j < |all|
      ensures Rank(all[i].kind) <= Rank(all[j].kind)
    {
      if i < |r| {
        assert all[i] == r[i];
      } else if i < |r| + |w| {
        assert all[i] == w[i - |r|] && j >= |r|;
        if j < |r| + |w| {
          assert all[j] == w[j - |r|];
        } else {
          assert all[j] == x[j - |r| - |w|];
        }
      } else {
        assert all[i] == x[i - |r| - |w|] && all[j] == x[j - |r| - |w|];
      }
    }
  }

  /** Callbacks run in the order `run` visits the kinds: reads, then writes, then errors. */
  lemma DispatchKindOrder(t: Tables, ready: Ready, react: Reaction)
    ensures KindsInOrder(Dispatched(t, Slots(ready), react).fired)
  {
    SlotsOrdered(ready);
    DispatchedInOrder(t, Slots(ready), react);
  }

  predicate Unregistered(t: Tables, fd: Fd)
  {
    fd !in t.read && fd !in t.write && fd !in t.error
  }

  /** Dropping the registrations of a descriptor that has none changes nothing. */
  lemma NothingToDrop(t: Tables, fd: Fd)
    requires Unregistered(t, fd)
    ensures t.WithoutAll(fd) == t
  {
    assert t.WithoutAll(fd).read == t.read && t.WithoutAll(fd).write == t.write && t.WithoutAll(fd).error == t.error;
  }

  /**
   * A descriptor that has no registration left (a destroyed socket) and that
   * no callback registers again fires nothing for the rest of the dispatch,
   * even if `select` reported it ready.
   */
  lemma {:induction false} DispatchSkipsUnregistered(t: Tables, slots: seq<Slot>, react: Reaction, fd: Fd)
    requires Unregistered(t, fd)
    requires forall u: Tables, f: Firing :: Unregistered(u, fd) ==> Unregistered(react(u, f), fd)
    ensures forall f :: f in Dispatched(t, slots, react).fired ==> f.fd != fd
    decreases |slots|
  {
    if slots != [] {
      var s := slots[0];
      if s.fd in t.Of(s.kind) {
        var f := Firing(s.kind, s.fd, t.Of(s.kind)[s.fd]);
        DispatchSkipsUnregistered(react(t, f), slots[1..], react, fd);
      } else {
        DispatchSkipsUnregistered(t, slots[1..], react, fd);
      }
    }
  }

  /** One entry of the abstract environment for a pass of `run`: what `select` reports and the clock. */
  datatype Tick = Tick(ready: Ready, now: int)

  /** The loop's tables and timers, as they stand between two passes of `run`. */
  datatype Snapshot = Snapshot(tables: Tables, timers: seq<Timer>)

  /** `any(event_callbacks) or timeout_callbacks`: the test of `run`'s `while`. */
  predicate Busy(s: Snapshot)
  {
    !s.tables.IsEmpty() || s.timers != []
  }

  /**
   * What one pass of `run` leaves: the tables after dispatching the ready
   * descriptors, if any table was non-empty, and the timers not yet due, if
   * any timer waited: none of them due, and none of them new. A loop with
   * no work is left as it is.
   */
  function Pass(s: Snapshot, tick: Tick, react: Reaction): (r: Snapshot)
    ensures !Busy(s) ==> r == s
    ensures forall t :: t in r.timers ==> tick.now < t.deadline
    ensures multiset(r.timers) <= multiset(s.timers)
  {
    ScanPartitions(s.timers, tick.now);
    Snapshot(if s.tables.IsEmpty() then s.tables else Dispatched(s.tables, Slots(tick.ready), react).tables,
             if s.timers == [] then [] else Undue(s.timers, tick.now))
  }

  /**
   * `trace` is the state of the loop before each of `|trace| - 1` passes of
   * `run` and after the last: every pass starts with work, and pass `i`
   * moves the loop as `Pass` on `ticks[i]`.
   */
  predicate Follows(trace: seq<Snapshot>, ticks: seq<Tick>, react: Reaction)
  {
    && 0 < |trace| <= |ticks| + 1
    && forall i :: 0 <= i < |trace| - 1 ==> Busy(trace[i]) && trace[i + 1] == Pass(trace[i], ticks[i], react)
  }

  /** One more pass, started with work, extends a trace of `run`. */
  lemma FollowsSnoc(trace: seq<Snapshot>, ticks: seq<Tick>, react: Reaction, next: Snapshot)
    requires Follows(trace, ticks, react) && |trace| <= |ticks|
    requires Busy(trace[|trace| - 1]) && next == Pass(trace[|trace| - 1], ticks[|trace| - 1], react)
    ensures Follows(trace + [next], ticks, react)
  {
    var t := trace + [next];
    forall i | 0 <= i < |t| - 1
      ensures Busy(t[i]) && t[i + 1] == Pass(t[i], ticks[i], react)
    {
      if i < |trace| - 1 {
        assert t[i] == trace[i] && t[i + 1] == trace[i + 1];
      }
    }
  }

  // -------------------------------------------------------------------- loop

  class EventLoop {
    var tables: Tables
    var timers: seq<Timer>

    constructor()
      ensures tables.IsEmpty() && timers == []
    {
      tables := Tables(map[], map[], map[]);
      timers := [];
    }

    function Current(): Snapshot
      reads this
    {
      Snapshot(tables, timers)
    }

    /** `register(fd, ev, func)`: sets `(ev, fd)`, replacing any earlier callback. */
    method Register(fd: Fd, k: Kind, cb: Callback)
      modifies this
      ensures tables.Of(k) == old(tables.Of(k))[fd := cb]
      ensures forall k' :: k' != k ==> tables.Of(k') == old(tables.Of(k'))
      ensures timers == old(timers)
    {
      tables := tables.With(k, fd, cb);
    }

    /** `unregister(fd, ev)`: removes `(ev, fd)` if present. */
    method Unregister(fd: Fd, k: Kind)
      modifies this
      ensures tables.Of(k) == old(tables.Of(k)) - {fd}
      ensures forall k' :: k' != k ==> tables.Of(k') == old(tables.Of(k'))
      ensures timers == old(timers)
    {
      tables := tables.Without(k, fd);
    }

    /** `unregister_all(fd)`: removes `fd` from each of the three tables in turn. */
    method UnregisterAll(fd: Fd)
      modifies this
      ensures forall k :: tables.Of(k) == old(tables.Of(k)) - {fd}
      ensures tables == old(tables).WithoutAll(fd)
      ensures Unregistered(tables, fd)
      ensures timers == old(timers)
    {
      for e := 0 to |Kinds|
        invariant forall i :: 0 <= i < e ==> tables.Of(Kinds[i]) == old(tables.Of(Kinds[i])) - {fd}
        invariant forall i :: e <= i < |Kinds| ==> tables.Of(Kinds[i]) == old(tables.Of(Kinds[i]))
        invariant timers == old(timers)
      {
        tables := tables.Without(Kinds[e], fd);
      }
      forall k ensures tables.Of(k) == old(tables.Of(k)) - {fd}
      {
        assert k == Kinds[Rank(k)];
      }
      assert tables.Of(Read) == tables.read && tables.Of(Write) == tables.write && tables.Of(Error) == tables.error;
      TablesExt(tables, old(tables).WithoutAll(fd));
    }

    /** `is_register(fd, ev)`. */
    method IsRegistered(fd: Fd, k: Kind) returns (b: bool)
      ensures b <==> fd in tables.Of(k)
    {
      b := fd in tables.Of(k);
    }

    /** `add_timeout(timeout, func)`: appends a timer due `timeout` after `now`. */
    method AddTimeout(now: int, timeout: int, cb: Callback)
      modifies this
      ensures timers == old(timers) + [Timer(now + timeout, cb)]
      ensures tables == old(tables)
    {
      timers := timers + [Timer(now + timeout, cb)];
    }

    /**
     * The timer half of a pass: fires, in list order, every timer whose
     * deadline has passed and keeps the others, in order, as the new list.
     */
    method ScanTimers(now: int) returns (fired: seq<Callback>)
      modifies this
      ensures fired == Callbacks(Due(old(timers), now))
      ensures timers == Undue(old(timers), now)
      ensures tables == old(tables)
    {
      var ts := timers;
      var unarrived: seq<Timer> := [];
      fired := [];
      for i := 0 to |ts|
        invariant fired == Callbacks(Due(ts[..i], now))
        invariant unarrived == Undue(ts[..i], now)
        invariant tables == old(tables)
      {
        var t := ts[i];
        assert ts[..i + 1] == ts[..i] + [t];
        ScanStep(ts[..i], t, now);
        if now >= t.deadline {
          fired := fired + [t.callback];
        } else {
          unarrived := unarrived + [t];
        }
      }
      assert ts[..|ts|] == ts;
      timers := unarrived;
    }

    /**
     * The dispatch half of a pass: for each kind in the order read, write,
     * error, and each descriptor `select` reported for it, runs the callback
     * registered at that moment, if any; `react` gives the effect of each
     * callback on the tables.
     */
    method Dispatch(ready: Ready, react: Reaction) returns (fired: seq<Firing>)
      modifies this
      ensures Outcome(tables, fired) == Dispatched(old(tables), Slots(ready), react)
      ensures timers == old(timers)
    {
      fired := [];
      for e := 0 to |Kinds|
        invariant Outcome(tables, fired) == Dispatched(old(tables), SlotsBefore(ready, e), react)
        invariant timers == old(timers)
      {
        fired := DispatchKind(Kinds[e], ready.Of(Kinds[e]), react, old(tables), SlotsBefore(ready, e), fired);
      }
    }

    /** The inner loop of a dispatch: the ready descriptors of one kind, in order. */
    method DispatchKind(k: Kind, fds: seq<Fd>, react: Reaction, ghost t0: Tables, ghost before: seq<Slot>,
                        firedBefore: seq<Firing>) returns (fired: seq<Firing>)
      requires Outcome(tables, firedBefore) == Dispatched(t0, before, react)
      modifies this
      ensures Outcome(tables, fired) == Dispatched(t0, before + SlotsOf(k, fds), react)
      ensures timers == old(timers)
    {
      fired := firedBefore;
      assert before + SlotsOf(k, fds[..0]) == before;
      for j := 0 to |fds|
        invariant Outcome(tables, fired) == Dispatched(t0, before + SlotsOf(k, fds[..j]), react)
        invariant timers == old(timers)
      {
        var fd := fds[j];
        assert before + SlotsOf(k, fds[..j + 1]) == before + SlotsOf(k, fds[..j]) + [Slot(k, fd)];
        DispatchStep(t0, before + SlotsOf(k, fds[..j]), Slot(k, fd), react, tables, fired);
        if fd in tables.Of(k) {
          var f := Firing(k, fd, tables.Of(k)[fd]);
          tables := react(tables, f);
          fired := fired + [f];
        }
      }
      assert fds[..|fds|] == fds;
    }

    /** One pass of `run`: dispatch if some table is non-empty, then scan if some timer waits. */
    method RunOnce(tick: Tick, react: Reaction) returns (fired: seq<Firing>, expired: seq<Callback>)
      modifies this
      ensures !old(tables).IsEmpty() ==> Outcome(tables, fired) == Dispatched(old(tables), Slots(tick.ready), react)
      ensures old(tables).IsEmpty() ==> tables == old(tables) && fired == []
      ensures old(timers) != [] ==> timers == Undue(old(timers), tick.now) && expired == Callbacks(Due(old(timers), tick.now))
      ensures old(timers) == [] ==> timers == [] && expired == []
      ensures Current() == Pass(old(Current()), tick, react)
    {
      fired, expired := [], [];
      if !tables.IsEmpty() {
        fired := Dispatch(tick.ready, react);
      }
      if timers != [] {
        expired := ScanTimers(tick.now);
      }
    }

    /**
     * `run`, for at most `|ticks|` passes, pass `i` meeting `ticks[i]`:
     * `trace` is the loop's state before each pass and after the last. Every
     * pass starts while some table is non-empty or some timer waits, and
     * moves the loop as `Pass`; when fewer passes ran than there were ticks,
     * the loop had run out of work.
     */
    method Run(ticks: seq<Tick>, react: Reaction) returns (passes: nat, ghost trace: seq<Snapshot>)
      modifies this
      ensures passes <= |ticks| && |trace| == passes + 1
      ensures trace[0] == old(Current()) && trace[passes] == Current()
      ensures Follows(trace, ticks, react)
      ensures passes < |ticks| ==> !Busy(Current())
      ensures !Busy(old(Current())) ==> passes == 0 && Current() == old(Current())
    {
      passes := 0;
      trace := [Current()];
      while passes < |ticks| && Busy(Current())
        invariant passes <= |ticks| && |trace| == passes + 1
        invariant trace[0] == old(Current()) && trace[passes] == Current()
        invariant Follows(trace, ticks, react)
      {
        var _, _ := RunOnce(ticks[passes], react);
        FollowsSnoc(trace, ticks, react, Current());
        trace := trace + [Current()];
        passes := passes + 1;
      }
    }
  }
}
