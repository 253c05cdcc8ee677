/** The gateway's connection tracker (internal/dataplane/connections.go): a counter that must agree
    with a nested map, and interrupts that reach exactly the tracked connections of one device. */
module ConnectionTracker {
  import opened Model

  type ConnectionId = nat

  /** `cancelled` collects the connections whose cancel function has been called. */
  datatype Tracker = Tracker(next: ConnectionId, live: map<DeviceId, set<ConnectionId>>, total: int,
                             cancelled: set<ConnectionId>)

  const FRESH := Tracker(0, map[], 0, {})

  function Of(live: map<DeviceId, set<ConnectionId>>, d: DeviceId): set<ConnectionId> {
    if d in live then live[d] else {}
  }

  function Tracked(t: Tracker, d: DeviceId): Tracker {
    t.(next := t.next + 1, live := t.live[d := Of(t.live, d) + {t.next + 1}], total := t.total + 1)
  }

  /** The closure that Track returned, called for connection `id` of `d`. */
  function Untracked(t: Tracker, d: DeviceId, id: ConnectionId): Tracker {
    var rest := Of(t.live, d) - {id};
    t.(live := if rest == {} then t.live - {d} else t.live[d := rest],
       total := if id in Of(t.live, d) then t.total - 1 else t.total)
  }

  function Interrupted(t: Tracker, d: DeviceId): Tracker {
    t.(cancelled := t.cancelled + Of(t.live, d))
  }

  // --- the invariant -----------------------------------------------------------

  ghost function Sum(m: map<DeviceId, set<ConnectionId>>): nat {
    if m == map[] then 0 else var d :| d in m; |m[d]| + Sum(m - {d})
  }

  lemma {:induction false} SumWithout(m: map<DeviceId, set<ConnectionId>>, d: DeviceId)
    requires d in m
    ensures Sum(m) == |m[d]| + Sum(m - {d})
    decreases m.Keys
  {
    var e :| e in m && Sum(m) == |m[e]| + Sum(m - {e});
    if e != d {
      SumWithout(m - {e}, d);
      SumWithout(m - {d}, e);
      assert m - {e} - {d} == m - {d} - {e};
    }
  }

  lemma SumReplaced(m: map<DeviceId, set<ConnectionId>>, d: DeviceId, s: set<ConnectionId>)
    ensures Sum(m[d := s]) == Sum(m) - |Of(m, d)| + |s|
  {
    SumWithout(m[d := s], d);
    assert m[d := s] - {d} == m - {d};
    if d in m {
      SumWithout(m, d);
    } else {
      assert m - {d} == m;
    }
  }

  ghost predicate Valid(t: Tracker) {
    && t.total == Sum(t.live)
    && (forall d :: d in t.live ==> t.live[d] != {})
    && (forall d, id :: d in t.live && id in t.live[d] ==> 1 <= id <= t.next)
    && (forall d, e :: d in t.live && e in t.live && d != e ==> t.live[d] !! t.live[e])
  }

  /** Track hands out an identifier that no connection ever had. */
  lemma TrackKeeps(t: Tracker, d: DeviceId)
    requires Valid(t)
    ensures Valid(Tracked(t, d))
    ensures forall e :: t.next + 1 !in Of(t.live, e)
  {
    var ids := Of(t.live, d) + {t.next + 1};
    SumReplaced(t.live, d, ids);
    forall e | e in t.live && e != d ensures t.live[e] !! ids {
      assert Of(t.live, d) !! t.live[e];
    }
    var live' := t.live[d := ids];
    assert forall e :: e in live' && e != d ==> live'[e] == t.live[e];
  }

  lemma UntrackKeeps(t: Tracker, d: DeviceId, id: ConnectionId)
    requires Valid(t)
    ensures Valid(Untracked(t, d, id))
  {
    var rest := Of(t.live, d) - {id};
    if d !in t.live {
      assert t.live - {d} == t.live;
    } else {
      SumWithout(t.live, d);
      SumReplaced(t.live, d, rest);
      assert |rest| == |t.live[d]| - if id in t.live[d] then 1 else 0;
    }
  }

  // --- runs --------------------------------------------------------------------

  datatype Op =
    | TrackOp(device: DeviceId)
    | UntrackOp(device: DeviceId, id: ConnectionId)
    | InterruptOp(device: DeviceId)

  function After(t: Tracker, op: Op): Tracker {
    match op
    case TrackOp(d) => Tracked(t, d)
    case UntrackOp(d, id) => Untracked(t, d, id)
    case InterruptOp(d) => Interrupted(t, d)
  }

  function Run(ops: seq<Op>): Tracker {
    if ops == [] then FRESH else After(Run(ops[..|ops| - 1]), ops[|ops| - 1])
  }

  /** After any sequence of tracks, untracks and interrupts the total is the sum of the per-device
      set sizes, and no identifier is live twice. */
  lemma {:induction false} EveryRunIsValid(ops: seq<Op>)
    ensures Valid(Run(ops))
  {
    if ops != [] {
      var t, op := Run(ops[..|ops| - 1]), ops[|ops| - 1];
      EveryRunIsValid(ops[..|ops| - 1]);
      match op
      case TrackOp(d) => TrackKeeps(t, d);
      case UntrackOp(d, id) => UntrackKeeps(t, d, id);
      case InterruptOp(_) =>
    }
  }

  /** An identifier that was issued and is no longer live never comes back. */
  lemma {:induction false} DeadStaysDead(ops: seq<Op>, i: nat, j: nat, d: DeviceId, id: ConnectionId)
    requires i <= j <= |ops| && id <= Run(ops[..i]).next && id !in Of(Run(ops[..i]).live, d)
    ensures id <= Run(ops[..j]).next && id !in Of(Run(ops[..j]).live, d)
    decreases j
  {
    if i < j {
      DeadStaysDead(ops, i, j - 1, d, id);
      assert ops[..j][..j - 1] == ops[..j - 1];
    }
  }

  /** Each connection is counted down once: of the calls of one untrack closure during a run, every
      one after the first leaves the whole tracker as it was. */
  lemma UntrackCountsOnce(ops: seq<Op>, i: nat, j: nat, d: DeviceId, id: ConnectionId)
    requires i < j < |ops| && ops[i] == UntrackOp(d, id) && ops[j] == UntrackOp(d, id)
    requires id <= Run(ops[..i]).next
    ensures Run(ops[..j + 1]) == Run(ops[..j])
  {
    assert ops[..i + 1][..i] == ops[..i];
    DeadStaysDead(ops, i + 1, j, d, id);
    assert ops[..j + 1][..j] == ops[..j];
    EveryRunIsValid(ops[..j]);
    UntrackOfDead(Run(ops[..j]), d, id);
  }

  lemma UntrackOfDead(t: Tracker, d: DeviceId, id: ConnectionId)
    requires Valid(t) && id !in Of(t.live, d)
    ensures Untracked(t, d, id) == t
  {
    assert Of(t.live, d) - {id} == Of(t.live, d);
    assert d in t.live ==> t.live[d := Of(t.live, d)] == t.live;
    assert d !in t.live ==> t.live - {d} == t.live;
  }

  // --- what the operations say about the state -----------------------------------

  /** How many connections have been tracked; the last of them got this number. */
  function Tracks(ops: seq<Op>): nat {
    if ops == [] then 0 else Tracks(ops[..|ops| - 1]) + (if ops[|ops| - 1].TrackOp? then 1 else 0)
  }

  ghost predicate OpenedAt(ops: seq<Op>, i: int, d: DeviceId, id: ConnectionId) {
    && 0 <= i < |ops| && ops[i] == TrackOp(d) && id == Tracks(ops[..i + 1])
    && forall j :: i < j < |ops| ==> ops[j] != UntrackOp(d, id)
  }

  /** Connection `id` was tracked for `d` and has not been untracked since. */
  ghost predicate Open(ops: seq<Op>, d: DeviceId, id: ConnectionId) {
    exists i :: OpenedAt(ops, i, d, id)
  }

  lemma OpenNext(ops: seq<Op>, d: DeviceId, id: ConnectionId)
    requires ops != []
    ensures var init, last := ops[..|ops| - 1], ops[|ops| - 1];
            Open(ops, d, id) <==>
              (last == TrackOp(d) && id == Tracks(ops)) || (Open(init, d, id) && last != UntrackOp(d, id))
  {
    var n := |ops| - 1;
    var init, last := ops[..n], ops[n];
    assert ops[..n + 1] == ops;
    if Open(ops, d, id) {
      var i :| OpenedAt(ops, i, d, id);
      if i < n {
        assert ops[..i + 1] == init[..i + 1];
        assert OpenedAt(init, i, d, id);
      }
    }
    if last == TrackOp(d) && id == Tracks(ops) {
      assert OpenedAt(ops, n, d, id);
    }
    if Open(init, d, id) && last != UntrackOp(d, id) {
      var i :| OpenedAt(init, i, d, id);
      assert ops[..i + 1] == init[..i + 1];
      assert OpenedAt(ops, i, d, id);
    }
  }

  /** The connections that are live for a device are exactly the ones tracked for it and not untracked
      since, and the counter is the number of tracks. */
  lemma {:induction false} LiveIffOpen(ops: seq<Op>, d: DeviceId, id: ConnectionId)
    ensures Run(ops).next == Tracks(ops)
    ensures id in Of(Run(ops).live, d) <==> Open(ops, d, id)
  {
    if ops == [] {
      assert forall i :: !OpenedAt(ops, i, d, id);
    } else {
      LiveIffOpen(ops[..|ops| - 1], d, id);
      OpenNext(ops, d, id);
    }
  }

  /** An interrupt cancels exactly what is open for its device: a connection is cancelled if and only if it
      was open for the device of some interrupt at that moment. */
  lemma {:induction false} CancelledIffInterrupted(ops: seq<Op>, id: ConnectionId)
    ensures id in Run(ops).cancelled <==>
              exists j :: 0 <= j < |ops| && ops[j].InterruptOp? && Open(ops[..j], ops[j].device, id)
  {
    if ops != [] {
      var n := |ops| - 1;
      var init := ops[..n];
      CancelledIffInterrupted(init, id);
      assert forall j :: 0 <= j < n ==> ops[..j] == init[..j];
      if ops[n].InterruptOp? {
        LiveIffOpen(init, ops[n].device, id);
      }
    }
  }

  // --- the tracker as an object --------------------------------------------------

  class Connections {
    var next: ConnectionId
    var byDevice: map<DeviceId, set<ConnectionId>>
    var total: int
    var cancelled: set<ConnectionId>

    ghost function View(): Tracker
      reads this
    {
      Tracker(next, byDevice, total, cancelled)
    }

    constructor ()
      ensures View() == FRESH
    {
      next, byDevice, total, cancelled := 0, map[], 0, {};
    }

    method Track(device: DeviceId) returns (id: ConnectionId)
      modifies this
      ensures id == old(next) + 1 && View() == Tracked(old(View()), device)
      ensures next == id && total == old(total) + 1 && cancelled == old(cancelled)
      ensures forall d, c: ConnectionId :: d in byDevice && c in byDevice[d] <==>
                (d in old(byDevice) && c in old(byDevice)[d]) || (d == device && c == id)
    {
      next := next + 1;
      id := next;
      if device !in byDevice {
        byDevice := byDevice[device := {}];
      }
      byDevice := byDevice[device := byDevice[device] + {id}];
      total := total + 1;
    }

    method Untrack(device: DeviceId, id: ConnectionId)
      modifies this
      ensures View() == Untracked(old(View()), device, id)
      ensures next == old(next) && cancelled == old(cancelled)
      ensures total == if device in old(byDevice) && id in old(byDevice)[device] then old(total) - 1 else old(total)
      ensures forall d, c: ConnectionId :: d in byDevice && c in byDevice[d] <==>
                d in old(byDevice) && c in old(byDevice)[d] && !(d == device && c == id)
      ensures device in byDevice ==> byDevice[device] != {}
    {
      if device in byDevice && id in byDevice[device] {
        byDevice := byDevice[device := byDevice[device] - {id}];
        total := total - 1;
      }
      if device !in byDevice || byDevice[device] == {} {
        byDevice := byDevice - {device};
      }
      if device in byDevice {
        assert byDevice[device] == Of(old(byDevice), device) - {id};
        assert byDevice == old(byDevice)[device := byDevice[device]];
      }
      forall d, c: ConnectionId
        ensures d in byDevice && c in byDevice[d] <==>
                  d in old(byDevice) && c in old(byDevice)[d] && !(d == device && c == id)
      {
        if d == device {
          assert c in Of(byDevice, device) <==> c in Of(old(byDevice), device) - {id};
        } else {
          assert Of(byDevice, d) == Of(old(byDevice), d);
        }
      }
    }

    method Interrupt(device: DeviceId) returns (count: nat)
      modifies this
      ensures View() == Interrupted(old(View()), device)
      ensures forall c :: c in cancelled <==>
                c in old(cancelled) || (device in old(byDevice) && c in old(byDevice)[device])
      ensures next == old(next) && byDevice == old(byDevice) && total == old(total)
      ensures count == if device in byDevice then |byDevice[device]| else 0
    {
      var items := if device in byDevice then byDevice[device] else {};
      var rest := items;
      while rest != {}
        invariant rest <= items && next == old(next) && byDevice == old(byDevice) && total == old(total)
        invariant cancelled == old(cancelled) + (items - rest)
      {
        var id :| id in rest;
        cancelled := cancelled + {id};
        rest := rest - {id};
      }
      assert items - rest == items;
      count := |items|;
    }
  }
}
