/** The registry of live workers: records in a store whose keys expire. */
module WorkerRegistry {
  import opened Prelude

  const HEARTBEAT_TTL_MS := 15000
  const STOPPED_TTL_MS := 5000

  datatype Status = STARTING | READY | DRAINING | STOPPED

  function Rank(s: Status): nat {
    match s
    case STARTING => 0
    case READY => 1
    case DRAINING => 2
    case STOPPED => 3
  }

  lemma StatusesInOrder()
    ensures Rank(STARTING) < Rank(READY) < Rank(DRAINING) < Rank(STOPPED)
  {
  }

  datatype Record = Record(
    workerId: string,
    status: Status,
    concurrency: Option<nat>,
    startedAt: nat,
    lastHeartbeat: nat)

  datatype Entry = Entry(record: Record, expiresAt: nat)

  type Store = map<string, Entry>

  /** What `get` returns at time `now`: an expired key is gone. */
  function Lookup(store: Store, id: string, now: nat): Option<Record> {
    if id in store && now < store[id].expiresAt then Some(store[id].record) else None
  }

  // ----- Writes and their replay -----

  datatype Action = Register(concurrency: nat) | Beat | SetStatus(status: Status)

  /** A `set`. Heartbeats and status changes read the record first: at `readAt`, when
      `seen` writes had been made; others may write between that read and this write. */
  datatype Write = Write(id: string, seen: nat, readAt: nat, at: nat, action: Action)

  function Ttl(a: Action): nat {
    if a == SetStatus(STOPPED) then STOPPED_TTL_MS else HEARTBEAT_TTL_MS
  }

  /** The record that a write stores, given what its `get` returned. */
  function Written(existing: Option<Record>, w: Write): Record {
    match w.action
    case Register(concurrency) => Record(w.id, STARTING, Some(concurrency), w.at, w.at)
    case Beat =>
      if existing.Some? then existing.value.(lastHeartbeat := w.at)
      else Record(w.id, READY, None, w.at, w.at)
    case SetStatus(status) =>
      if existing.Some? then existing.value.(status := status, lastHeartbeat := w.at)
      else Record(w.id, status, None, w.at, w.at)
  }

  /** What the `get` of `w` returned, when `log` has the writes before `w`. */
  function Read(log: seq<Write>, w: Write): Option<Record>
    decreases |log|, 1
  {
    if w.seen <= |log| then Lookup(Replay(log[..w.seen]), w.id, w.readAt) else None
  }

  function Replay(log: seq<Write>): Store
    decreases |log|, 0
  {
    if log == [] then map[]
    else
      var init, last := log[..|log| - 1], log[|log| - 1];
      Replay(init)[last.id := Entry(Written(Read(init, last), last), last.at + Ttl(last.action))]
  }

  lemma ReplaySnoc(log: seq<Write>, w: Write)
    ensures Replay(log + [w]) == Replay(log)[w.id := Entry(Written(Read(log, w), w), w.at + Ttl(w.action))]
  {
    assert (log + [w])[..|log|] == log;
  }

  /** The state after `n` writes, at time `t`, is one that an observer can see. */
  predicate Moment(log: seq<Write>, n: int, t: nat) {
    && 0 <= n <= |log|
    && (0 < n ==> log[n - 1].at <= t)
    && (n < |log| ==> t <= log[n].at)
  }

  predicate Ascending(log: seq<Write>) {
    forall i :: 0 < i < |log| ==> log[i - 1].at <= log[i].at
  }

  /** The read of `log[i]` saw the state that there was at its time. */
  predicate ReadInTime(log: seq<Write>, i: nat)
    requires i < |log|
  {
    log[i].seen <= i && log[i].readAt <= log[i].at && Moment(log, log[i].seen, log[i].readAt)
  }

  /** The writes are in the order of their times, and each read came before its write. */
  predicate InOrder(log: seq<Write>) {
    Ascending(log) && forall i :: 0 <= i < |log| ==> ReadInTime(log, i)
  }

  // ----- Heard from recently -----

  function LastWrite(log: seq<Write>, id: string): Option<Write> {
    if log == [] then None
    else if log[|log| - 1].id == id then Some(log[|log| - 1])
    else LastWrite(log[..|log| - 1], id)
  }

  /** The last write of the worker has not run out: 15 s, or 5 s when it said STOPPED. */
  predicate HeardFrom(log: seq<Write>, id: string, now: nat) {
    LastWrite(log, id).Some? && now < LastWrite(log, id).value.at + Ttl(LastWrite(log, id).value.action)
  }

  /** A worker is listed exactly while it has been heard from recently, whatever the
      other writes are and however reads and writes overlap. */
  lemma {:induction false} ListedIffHeardFrom(log: seq<Write>, id: string, now: nat)
    ensures Lookup(Replay(log), id, now).Some? <==> HeardFrom(log, id, now)
    ensures Lookup(Replay(log), id, now).Some? ==>
              && Lookup(Replay(log), id, now).value.workerId == id
              && Lookup(Replay(log), id, now).value.lastHeartbeat == LastWrite(log, id).value.at
    decreases |log|
  {
    if log == [] {
    } else {
      var init, last := log[..|log| - 1], log[|log| - 1];
      ListedIffHeardFrom(init, id, now);
      if last.seen <= |init| {
        ListedIffHeardFrom(init[..last.seen], id, last.readAt);
      }
    }
  }

  // ----- The status a worker shows -----

  /** The status the worker last asked for. */
  function Requested(log: seq<Write>, id: string): Option<Status> {
    if log == [] then None
    else
      var before, last := Requested(log[..|log| - 1], id), log[|log| - 1];
      if last.id != id then before
      else
        match last.action
        case Register(_) => Some(STARTING)
        case Beat => before
        case SetStatus(status) => Some(status)
  }

  /** What the worker had asked for when `w` read its record. */
  function RequestedAtRead(log: seq<Write>, w: Write): Option<Status> {
    if w.seen <= |log| then Requested(log[..w.seen], w.id) else None
  }

  /** A worker registers first and asks for statuses in order. Its heartbeats start
      between READY and STOPPED only; one that is under way may end later. */
  predicate MayFollow(log: seq<Write>, w: Write) {
    var before := Requested(log, w.id);
    match w.action
    case Register(_) => before == None
    case Beat => RequestedAtRead(log, w) in {Some(READY), Some(DRAINING)}
    case SetStatus(status) => before.Some? && Rank(before.value) <= Rank(status)
  }

  predicate Lifecycle(log: seq<Write>, id: string) {
    log == [] ||
    var init, last := log[..|log| - 1], log[|log| - 1];
    Lifecycle(init, id) && (last.id == id ==> MayFollow(init, last))
  }

  /** A heartbeat that writes an outdated status: its worker has asked for another one
      since the read, or the record had expired and the worker is no longer READY. */
  predicate StaleBeat(log: seq<Write>, w: Write) {
    && w.action.Beat? && w.seen <= |log|
    && Requested(log, w.id)
       != if HeardFrom(log[..w.seen], w.id, w.readAt) then RequestedAtRead(log, w) else Some(READY)
  }

  predicate NoStaleBeat(log: seq<Write>, id: string) {
    log == [] ||
    var init, last := log[..|log| - 1], log[|log| - 1];
    NoStaleBeat(init, id) && (last.id == id ==> !StaleBeat(init, last))
  }

  /** The stored status is the requested one. */
  predicate Agrees(log: seq<Write>, id: string) {
    id in Replay(log) ==> Requested(log, id) == Some(Replay(log)[id].record.status)
  }

  /** At every point of the log the stored status is the requested one. */
  predicate Faithful(log: seq<Write>, id: string) {
    log == [] || (Faithful(log[..|log| - 1], id) && Agrees(log, id))
  }

  lemma {:induction false} StoredOnceRequested(log: seq<Write>, id: string)
    requires Lifecycle(log, id)
    ensures id in Replay(log) <==> Requested(log, id).Some?
    decreases |log|
  {
    if log == [] {
    } else {
      var init, last := log[..|log| - 1], log[|log| - 1];
      StoredOnceRequested(init, id);
      if last.id == id && last.action.Beat? {
        RequestsGoUp(init, id, last.seen);
      }
    }
  }

  lemma {:induction false} FaithfulPrefix(log: seq<Write>, id: string, n: nat)
    requires n <= |log|
    ensures Faithful(log, id) ==> Faithful(log[..n], id) && Agrees(log[..n], id)
    ensures Lifecycle(log, id) ==> Lifecycle(log[..n], id)
    ensures NoStaleBeat(log, id) ==> NoStaleBeat(log[..n], id)
    decreases |log|
  {
    if n == |log| {
      assert log[..n] == log;
    } else {
      var init := log[..|log| - 1];
      assert init[..n] == log[..n];
      FaithfulPrefix(init, id, n);
    }
  }

  lemma {:induction false} RequestsGoUp(log: seq<Write>, id: string, n: nat)
    requires n <= |log| && Lifecycle(log, id) && Requested(log[..n], id).Some?
    ensures Requested(log, id).Some?
    ensures Rank(Requested(log[..n], id).value) <= Rank(Requested(log, id).value)
    decreases |log|
  {
    if n == |log| {
      assert log[..n] == log;
    } else {
      var init := log[..|log| - 1];
      assert init[..n] == log[..n];
      RequestsGoUp(init, id, n);
    }
  }

  /** What a heartbeat writes after a faithful log. */
  lemma BeatWrites(log: seq<Write>, w: Write)
    requires Lifecycle(log, w.id) && Faithful(log, w.id)
    requires w.action.Beat? && w.seen <= |log| && RequestedAtRead(log, w) in {Some(READY), Some(DRAINING)}
    ensures StaleBeat(log, w) <==> Requested(log, w.id) != Some(Written(Read(log, w), w).status)
    ensures Requested(log, w.id).Some?
    ensures StaleBeat(log, w) ==> Rank(Written(Read(log, w), w).status) < Rank(Requested(log, w.id).value)
  {
    var before := log[..w.seen];
    FaithfulPrefix(log, w.id, w.seen);
    ListedIffHeardFrom(before, w.id, w.readAt);
    RequestsGoUp(log, w.id, w.seen);
  }

  /** The registry shows the requested status throughout exactly when no heartbeat is
      stale. */
  lemma {:induction false} FaithfulIffNoStaleBeat(log: seq<Write>, id: string)
    requires Lifecycle(log, id)
    ensures Faithful(log, id) <==> NoStaleBeat(log, id)
    decreases |log|
  {
    if log == [] {
    } else {
      var init, last := log[..|log| - 1], log[|log| - 1];
      FaithfulIffNoStaleBeat(init, id);
      StoredOnceRequested(log, id);
      if Faithful(init, id) {
        FaithfulPrefix(init, id, |init|);
        assert init[..|init|] == init;
        if last.id == id && last.action.Beat? {
          BeatWrites(init, last);
        }
      }
    }
  }

  // ----- The visible status -----

  /** What an observer sees of the worker after `n` writes, at time `t`. */
  function Visible(log: seq<Write>, id: string, n: nat, t: nat): Option<Status>
    requires n <= |log|
  {
    match Lookup(Replay(log[..n]), id, t)
    case Some(record) => Some(record.status)
    case None => None
  }

  /** Nobody ever sees the worker in an earlier status than before. */
  ghost predicate NeverGoesBack(log: seq<Write>, id: string) {
    forall n: nat, t: nat, m: nat, u: nat ::
      n <= m && Moment(log, n, t) && Moment(log, m, u)
      && Visible(log, id, n, t).Some? && Visible(log, id, m, u).Some? ==>
        Rank(Visible(log, id, n, t).value) <= Rank(Visible(log, id, m, u).value)
  }

  lemma VisibleGoesUp(log: seq<Write>, id: string, n: nat, t: nat, m: nat, u: nat)
    requires Lifecycle(log, id) && NoStaleBeat(log, id) && n <= m <= |log|
    requires Visible(log, id, n, t).Some? && Visible(log, id, m, u).Some?
    ensures Rank(Visible(log, id, n, t).value) <= Rank(Visible(log, id, m, u).value)
  {
    FaithfulIffNoStaleBeat(log, id);
    FaithfulPrefix(log, id, n);
    FaithfulPrefix(log, id, m);
    assert log[..m][..n] == log[..n];
    RequestsGoUp(log[..m], id, n);
  }

  /** The write that asked for the current status, if any did. */
  lemma {:induction false} LastRequest(log: seq<Write>, id: string) returns (j: nat)
    requires Requested(log, id).Some?
    ensures j < |log| && log[j].id == id && Requested(log[..j + 1], id) == Requested(log, id)
    ensures (log[j].action.Register? && Requested(log, id) == Some(STARTING))
            || log[j].action == SetStatus(Requested(log, id).value)
    decreases |log|
  {
    var n := |log| - 1;
    var init, last := log[..n], log[n];
    assert log[..n + 1] == log;
    if last.id == id && !last.action.Beat? {
      j := n;
    } else {
      j := LastRequest(init, id);
      assert init[..j + 1] == log[..j + 1];
    }
  }

  /** After a write its record is visible at once. */
  lemma VisibleAtWrite(log: seq<Write>, j: nat)
    requires j < |log| && InOrder(log)
    ensures Moment(log, j + 1, log[j].at)
    ensures Visible(log, log[j].id, j + 1, log[j].at) == Some(Written(Read(log[..j], log[j]), log[j]).status)
  {
    assert log[..j + 1] == log[..j] + [log[j]];
    ReplaySnoc(log[..j], log[j]);
  }

  lemma {:induction false} FirstStaleBeat(log: seq<Write>, id: string) returns (k: nat)
    requires !NoStaleBeat(log, id)
    ensures k < |log| && log[k].id == id && NoStaleBeat(log[..k], id) && StaleBeat(log[..k], log[k])
    decreases |log|
  {
    var n := |log| - 1;
    var init := log[..n];
    if NoStaleBeat(init, id) {
      k := n;
    } else {
      k := FirstStaleBeat(init, id);
      assert init[..k] == log[..k];
    }
  }

  /** The requested status was visible when the worker asked for it. */
  lemma VisibleOnceRequested(log: seq<Write>, id: string, k: nat) returns (j: nat)
    requires InOrder(log) && k <= |log| && Requested(log[..k], id).Some?
    ensures j < k && Moment(log, j + 1, log[j].at)
    ensures Visible(log, id, j + 1, log[j].at) == Requested(log[..k], id)
  {
    j := LastRequest(log[..k], id);
    VisibleAtWrite(log, j);
  }

  /** Before a stale heartbeat its worker was seen in a later status than the one it
      shows after it. */
  lemma StaleBeatShows(log: seq<Write>, id: string, k: nat) returns (j: nat)
    requires Lifecycle(log, id) && InOrder(log) && k < |log| && log[k].id == id
    requires NoStaleBeat(log[..k], id) && StaleBeat(log[..k], log[k])
    ensures j < k && Moment(log, j + 1, log[j].at) && Moment(log, k + 1, log[k].at)
    ensures Visible(log, id, j + 1, log[j].at).Some? && Visible(log, id, k + 1, log[k].at).Some?
    ensures Rank(Visible(log, id, k + 1, log[k].at).value) < Rank(Visible(log, id, j + 1, log[j].at).value)
  {
    FaithfulPrefix(log, id, k);
    FaithfulPrefix(log, id, k + 1);
    assert log[..k + 1][..k] == log[..k];
    FaithfulIffNoStaleBeat(log[..k], id);
    BeatWrites(log[..k], log[k]);
    j := VisibleOnceRequested(log, id, k);
    VisibleAtWrite(log, k);
  }

  /** The visible status never goes back in STARTING < READY < DRAINING < STOPPED if and
      only if no heartbeat is stale. */
  lemma VisibleStatusNeverGoesBack(log: seq<Write>, id: string)
    requires Lifecycle(log, id) && InOrder(log)
    ensures NeverGoesBack(log, id) <==> NoStaleBeat(log, id)
  {
    if NoStaleBeat(log, id) {
      forall n: nat, t: nat, m: nat, u: nat |
        n <= m && Moment(log, n, t) && Moment(log, m, u)
        && Visible(log, id, n, t).Some? && Visible(log, id, m, u).Some?
        ensures Rank(Visible(log, id, n, t).value) <= Rank(Visible(log, id, m, u).value)
      {
        VisibleGoesUp(log, id, n, t, m, u);
      }
    } else {
      var k := FirstStaleBeat(log, id);
      var j := StaleBeatShows(log, id, k);
    }
  }

  // ----- Two logs on which it goes back -----

  lemma LogSnoc(log: seq<Write>, w: Write)
    ensures Requested(log + [w], w.id)
            == match w.action case Register(_) => Some(STARTING) case Beat => Requested(log, w.id)
                              case SetStatus(status) => Some(status)
    ensures LastWrite(log + [w], w.id) == Some(w)
    ensures Lifecycle(log + [w], w.id) <==> Lifecycle(log, w.id) && MayFollow(log, w)
    ensures NoStaleBeat(log + [w], w.id) <==> NoStaleBeat(log, w.id) && !StaleBeat(log, w)
  {
    assert (log + [w])[..|log|] == log;
  }

  lemma InOrderSnoc(log: seq<Write>, w: Write)
    requires InOrder(log) && w.seen <= |log| && w.readAt <= w.at && Moment(log, w.seen, w.readAt)
    requires log != [] ==> log[|log| - 1].at <= w.at
    ensures InOrder(log + [w])
  {
    var more := log + [w];
    forall i | 0 <= i < |more| ensures ReadInTime(more, i) {
      if i < |log| {
        assert ReadInTime(log, i);
      }
    }
  }

  /** A worker registers and becomes READY. */
  function StartUp(id: string): seq<Write> {
    [Write(id, 0, 0, 0, Register(2))] + [Write(id, 1, 0, 0, SetStatus(READY))]
  }

  /** At `at` it starts draining. */
  function Draining(id: string, at: nat): seq<Write> {
    StartUp(id) + [Write(id, 2, at, at, SetStatus(DRAINING))]
  }

  /** A draining worker beats when its record has just expired. */
  function LateBeat(id: string): Write {
    Write(id, 3, 15001, 15001, Beat)
  }

  /** A heartbeat that reads the record before the worker asks for DRAINING, and writes
      it back afterwards. */
  function OverlappingBeat(id: string): Write {
    Write(id, 2, 5000, 5002, Beat)
  }

  lemma DrainingIsFine(id: string, at: nat)
    ensures Lifecycle(Draining(id, at), id) && Requested(Draining(id, at), id) == Some(DRAINING)
    ensures LastWrite(Draining(id, at), id) == Some(Write(id, 2, at, at, SetStatus(DRAINING)))
    ensures Requested(StartUp(id), id) == Some(READY)
    ensures LastWrite(StartUp(id), id) == Some(Write(id, 1, 0, 0, SetStatus(READY)))
    ensures Draining(id, at)[..2] == StartUp(id) && Draining(id, at)[..3] == Draining(id, at)
    ensures InOrder(Draining(id, at))
  {
    var register := Write(id, 0, 0, 0, Register(2));
    LogSnoc([], register);
    assert [] + [register] == [register];
    LogSnoc([register], Write(id, 1, 0, 0, SetStatus(READY)));
    LogSnoc(StartUp(id), Write(id, 2, at, at, SetStatus(DRAINING)));
  }

  lemma LateBeatGoesBack(id: string)
    ensures var log := Draining(id, 1) + [LateBeat(id)];
            Lifecycle(log, id) && InOrder(log) && !NeverGoesBack(log, id)
  {
    DrainingIsFine(id, 1);
    LogSnoc(Draining(id, 1), LateBeat(id));
    InOrderSnoc(Draining(id, 1), LateBeat(id));
    assert StaleBeat(Draining(id, 1), LateBeat(id));
    VisibleStatusNeverGoesBack(Draining(id, 1) + [LateBeat(id)], id);
  }

  lemma OverlappingBeatGoesBack(id: string)
    ensures var log := Draining(id, 5001) + [OverlappingBeat(id)];
            Lifecycle(log, id) && InOrder(log) && !NeverGoesBack(log, id)
  {
    DrainingIsFine(id, 5001);
    LogSnoc(Draining(id, 5001), OverlappingBeat(id));
    InOrderSnoc(Draining(id, 5001), OverlappingBeat(id));
    assert StaleBeat(Draining(id, 5001), OverlappingBeat(id));
    VisibleStatusNeverGoesBack(Draining(id, 5001) + [OverlappingBeat(id)], id);
  }

  // ----- Regular heartbeats -----

  /** Heartbeats come less than the TTL apart, find the record still there, and no status
      change overlaps with them. */
  predicate RegularBeats(log: seq<Write>, id: string) {
    log == [] ||
    var init, last := log[..|log| - 1], log[|log| - 1];
    && RegularBeats(init, id)
    && (last.id == id && last.action.Beat? && last.seen <= |init| ==>
          && HeardFrom(init, id, last.at)
          && HeardFrom(init[..last.seen], id, last.readAt)
          && forall i :: last.seen <= i < |init| && init[i].id == id ==> init[i].action.Beat?)
  }

  lemma {:induction false} RequestedUnmoved(log: seq<Write>, id: string, n: nat)
    requires n <= |log|
    requires forall i :: n <= i < |log| && log[i].id == id ==> log[i].action.Beat?
    ensures Requested(log, id) == Requested(log[..n], id)
    decreases |log|
  {
    if n == |log| {
      assert log[..n] == log;
    } else {
      var init := log[..|log| - 1];
      assert init[..n] == log[..n];
      RequestedUnmoved(init, id, n);
    }
  }

  lemma {:induction false} RegularBeatsAreNotStale(log: seq<Write>, id: string)
    requires RegularBeats(log, id)
    ensures NoStaleBeat(log, id)
    decreases |log|
  {
    if log == [] {
    } else {
      var init, last := log[..|log| - 1], log[|log| - 1];
      RegularBeatsAreNotStale(init, id);
      if last.id == id && last.action.Beat? && last.seen <= |init| {
        RequestedUnmoved(init, id, last.seen);
      }
    }
  }

  /** With regular heartbeats a worker is listed at every instant from one write to the
      next heartbeat. */
  lemma ListedBetweenBeats(log: seq<Write>, id: string, now: nat)
    requires log != [] && RegularBeats(log, id)
    requires log[|log| - 1].id == id && log[|log| - 1].action.Beat? && log[|log| - 1].seen < |log|
    requires now <= log[|log| - 1].at
    ensures Lookup(Replay(log[..|log| - 1]), id, now).Some?
  {
    ListedIffHeardFrom(log[..|log| - 1], id, now);
  }

  // ----- The registry, in place -----

  class Registry {
    var store: Store
    /** The writes made so far. */
    ghost var log: seq<Write>

    ghost predicate Valid()
      reads this
    {
      store == Replay(log)
    }

    constructor ()
      ensures Valid() && log == []
    {
      store, log := map[], [];
    }

    method Put(record: Record, ttl: nat, ghost w: Write)
      requires Valid() && record == Written(Read(log, w), w) && ttl == Ttl(w.action)
      modifies this
      ensures Valid() && log == old(log) + [w]
      ensures store == old(store)[w.id := Entry(record, w.at + ttl)]
    {
      WrittenNow(log, w);
      ReplaySnoc(log, w);
      store := store[record.workerId := Entry(record, record.lastHeartbeat + ttl)];
      log := log + [w];
    }

    method RegisterWorker(id: string, concurrency: nat, now: nat) returns (ok: bool)
      requires Valid()
      modifies this
      ensures Valid() && ok == (id != "")
      ensures log == if ok then old(log) + [Write(id, |old(log)|, now, now, Register(concurrency))] else old(log)
      ensures ok ==> store == old(store)[id := Entry(Record(id, STARTING, Some(concurrency), now, now), now + 15000)]
    {
      if id == "" {
        return false;
      }
      Put(Record(id, STARTING, Some(concurrency), now, now), HEARTBEAT_TTL_MS,
          Write(id, |log|, now, now, Register(concurrency)));
      ok := true;
    }

    /** The `get` with which heartbeats and status changes begin. Until they go on, any
        other call may come in between. */
    method Get(id: string, now: nat) returns (existing: Option<Record>, ghost seen: nat)
      requires Valid()
      ensures seen == |log| && existing == Lookup(Replay(log[..seen]), id, now)
    {
      assert log[..|log|] == log;
      return Lookup(store, id, now), |log|;
    }

    /** A heartbeat, from what its `get` returned on. */
    method HeartbeatWorker(id: string, existing: Option<Record>, now: nat, ghost seen: nat, ghost readAt: nat)
        returns (ok: bool)
      requires Valid() && seen <= |log| && existing == Lookup(Replay(log[..seen]), id, readAt)
      modifies this
      ensures Valid() && ok == (id != "")
      ensures log == if ok then old(log) + [Write(id, seen, readAt, now, Beat)] else old(log)
      ensures ok && existing.Some? ==>
                store == old(store)[id := Entry(existing.value.(lastHeartbeat := now), now + 15000)]
      ensures ok && existing.None? ==>
                store == old(store)[id := Entry(Record(id, READY, None, now, now), now + 15000)]
    {
      if id == "" {
        return false;
      }
      var record := Record(id, READY, None, now, now);
      if existing.Some? {
        record := existing.value.(lastHeartbeat := now);
      }
      Put(record, HEARTBEAT_TTL_MS, Write(id, seen, readAt, now, Beat));
      ok := true;
    }

    /** A status change, from what its `get` returned on. */
    method UpdateWorkerStatus(id: string, status: Status, existing: Option<Record>, now: nat,
                              ghost seen: nat, ghost readAt: nat)
        returns (ok: bool)
      requires Valid() && seen <= |log| && existing == Lookup(Replay(log[..seen]), id, readAt)
      modifies this
      ensures Valid() && ok == (id != "")
      ensures log == if ok then old(log) + [Write(id, seen, readAt, now, SetStatus(status))] else old(log)
      ensures var until := now + if status == STOPPED then 5000 else 15000;
              && (ok && existing.Some? ==>
                    store == old(store)[id := Entry(existing.value.(status := status, lastHeartbeat := now), until)])
              && (ok && existing.None? ==>
                    store == old(store)[id := Entry(Record(id, status, None, now, now), until)])
    {
      if id == "" {
        return false;
      }
      var record := Record(id, status, None, now, now);
      if existing.Some? {
        record := existing.value.(status := status, lastHeartbeat := now);
      }
      Put(record, if status == STOPPED then STOPPED_TTL_MS else HEARTBEAT_TTL_MS,
          Write(id, seen, readAt, now, SetStatus(status)));
      ok := true;
    }

    /** Lists every worker heard from recently once, with a default concurrency of 1, in
        the order in which they started. */
    method GetActiveWorkers(now: nat) returns (workers: seq<Record>)
      requires Valid()
      ensures IdsOf(workers) == Listed(store, now) && |workers| == |Listed(store, now)|
      ensures forall i :: 0 <= i < |workers| ==>
                && workers[i].workerId in store
                && var stored := store[workers[i].workerId].record;
                   && workers[i] == stored.(concurrency := workers[i].concurrency)
                   && workers[i].concurrency == match stored.concurrency
                                                case Some(n) => if n == 0 then Some(1) else Some(n)
                                                case None => Some(1)
      ensures forall i, j :: 0 <= i < j < |workers| ==> workers[i].startedAt <= workers[j].startedAt
    {
      ReplayIsKeyed(log);
      var unsorted := CollectWorkers(store, now);
      workers := Sorted(unsorted);
      SortedPermutes(unsorted);
      SameIds(unsorted, workers);
    }
  }

  lemma WrittenNow(log: seq<Write>, w: Write)
    ensures Written(Read(log, w), w).workerId == w.id && Written(Read(log, w), w).lastHeartbeat == w.at
  {
    if w.seen <= |log| {
      ListedIffHeardFrom(log[..w.seen], w.id, w.readAt);
    }
  }

  // ----- The order of the list -----

  predicate SortedByStart(workers: seq<Record>) {
    forall i, j :: 0 <= i < j < |workers| ==> workers[i].startedAt <= workers[j].startedAt
  }

  /** Puts `r` after the workers that started no later. */
  function Insert(workers: seq<Record>, r: Record): seq<Record> {
    if workers == [] || workers[|workers| - 1].startedAt <= r.startedAt then workers + [r]
    else Insert(workers[..|workers| - 1], r) + [workers[|workers| - 1]]
  }

  function Sorted(workers: seq<Record>): seq<Record> {
    if workers == [] then [] else Insert(Sorted(workers[..|workers| - 1]), workers[|workers| - 1])
  }

  predicate StartedBy(workers: seq<Record>, t: nat) {
    forall i :: 0 <= i < |workers| ==> workers[i].startedAt <= t
  }

  lemma SortedSnoc(workers: seq<Record>, r: Record)
    requires SortedByStart(workers) && StartedBy(workers, r.startedAt)
    ensures SortedByStart(workers + [r])
  {
  }

  lemma {:induction false} InsertPermutes(workers: seq<Record>, r: Record)
    ensures multiset(Insert(workers, r)) == multiset(workers) + multiset{r}
  {
    if workers == [] || workers[|workers| - 1].startedAt <= r.startedAt {
    } else {
      var init, last := workers[..|workers| - 1], workers[|workers| - 1];
      assert workers == init + [last];
      InsertPermutes(init, r);
    }
  }

  lemma {:induction false} InsertStartedBy(workers: seq<Record>, r: Record, t: nat)
    requires StartedBy(workers, t) && r.startedAt <= t
    ensures StartedBy(Insert(workers, r), t)
  {
    if workers == [] || workers[|workers| - 1].startedAt <= r.startedAt {
    } else {
      InsertStartedBy(workers[..|workers| - 1], r, t);
    }
  }

  lemma {:induction false} InsertSorts(workers: seq<Record>, r: Record)
    requires SortedByStart(workers)
    ensures SortedByStart(Insert(workers, r))
  {
    if workers == [] || workers[|workers| - 1].startedAt <= r.startedAt {
      SortedSnoc(workers, r);
    } else {
      var init, last := workers[..|workers| - 1], workers[|workers| - 1];
      InsertSorts(init, r);
      InsertStartedBy(init, r, last.startedAt);
      SortedSnoc(Insert(init, r), last);
    }
  }

  lemma {:induction false} SortedPermutes(workers: seq<Record>)
    ensures SortedByStart(Sorted(workers)) && multiset(Sorted(workers)) == multiset(workers)
  {
    if workers == [] {
    } else {
      var init, last := workers[..|workers| - 1], workers[|workers| - 1];
      assert workers == init + [last];
      SortedPermutes(init);
      InsertSorts(Sorted(init), last);
      InsertPermutes(Sorted(init), last);
    }
  }

  lemma SameIds(workers: seq<Record>, others: seq<Record>)
    requires multiset(workers) == multiset(others)
    ensures |workers| == |others| && IdsOf(workers) == IdsOf(others)
    ensures forall store: Store :: AllShown(workers, store) ==> AllShown(others, store)
  {
    assert |multiset(workers)| == |multiset(others)|;
    forall r ensures r in workers <==> r in others {
      assert r in multiset(workers) <==> r in multiset(others);
    }
    forall store: Store | AllShown(workers, store) ensures AllShown(others, store) {
      forall i | 0 <= i < |others|
        ensures others[i].workerId in store && others[i] == Shown(store[others[i].workerId].record)
      {
        assert others[i] in workers;
      }
    }
    SubsetOfIds(workers, others);
    SubsetOfIds(others, workers);
  }

  lemma SubsetOfIds(workers: seq<Record>, others: seq<Record>)
    requires forall r :: r in workers ==> r in others
    ensures IdsOf(workers) <= IdsOf(others)
  {
    forall id | id in IdsOf(workers) ensures id in IdsOf(others) {
      var i :| 0 <= i < |workers| && workers[i].workerId == id;
      assert workers[i] in others;
    }
  }

  // ----- The list -----

  /** Every entry is stored under its own worker's key. */
  predicate Keyed(store: Store) {
    forall id :: id in store ==> store[id].record.workerId == id
  }

  lemma {:induction false} ReplayIsKeyed(log: seq<Write>)
    ensures Keyed(Replay(log))
  {
    if log == [] {
    } else {
      ReplayIsKeyed(log[..|log| - 1]);
      WrittenNow(log[..|log| - 1], log[|log| - 1]);
    }
  }

  /** The loop has dealt with all keys but `keys`. */
  ghost predicate Collected(store: Store, now: nat, keys: set<string>, workers: seq<Record>) {
    && keys <= store.Keys
    && IdsOf(workers) == Listed(store, now) - keys
    && |workers| == |Listed(store, now) - keys|
    && AllShown(workers, store)
  }

  lemma CollectStep(store: Store, now: nat, keys: set<string>, workers: seq<Record>, key: string)
    requires Keyed(store) && Collected(store, now, keys, workers) && key in keys
    ensures Collected(store, now, keys - {key},
                      if now < store[key].expiresAt then workers + [Shown(store[key].record)] else workers)
  {
    ListedStep(store, now, keys, key);
    if now < store[key].expiresAt {
      IdsSnoc(workers, Shown(store[key].record));
      AllShownSnoc(workers, store, key);
    }
  }

  /** The loop of `getActiveWorkers` over the keys and the values that still exist. */
  method CollectWorkers(store: Store, now: nat) returns (workers: seq<Record>)
    requires Keyed(store)
    ensures IdsOf(workers) == Listed(store, now) && |workers| == |Listed(store, now)|
    ensures AllShown(workers, store)
  {
    workers := [];
    var keys := store.Keys;
    assert Listed(store, now) - keys == {};
    while keys != {}
      invariant Collected(store, now, keys, workers)
      decreases |keys|
    {
      var key :| key in keys;
      CollectStep(store, now, keys, workers, key);
      if now < store[key].expiresAt {
        workers := workers + [Shown(store[key].record)];
      }
      keys := keys - {key};
    }
    assert Listed(store, now) - {} == Listed(store, now);
  }

  /** The workers whose keys are still there at `now`. */
  function Listed(store: Store, now: nat): set<string> {
    set id | id in store && now < store[id].expiresAt
  }

  function IdsOf(workers: seq<Record>): set<string> {
    set i | 0 <= i < |workers| :: workers[i].workerId
  }

  lemma IdsSnoc(workers: seq<Record>, r: Record)
    ensures IdsOf(workers + [r]) == IdsOf(workers) + {r.workerId}
  {
    var more := workers + [r];
    assert more[|workers|] == r;
    forall id | id in IdsOf(workers) ensures id in IdsOf(more) {
      var i :| 0 <= i < |workers| && workers[i].workerId == id;
      assert more[i].workerId == id;
    }
  }

  function Shown(r: Record): Record {
    r.(concurrency := Some(ConcurrencyOf(r)))
  }

  predicate AllShown(workers: seq<Record>, store: Store) {
    forall i :: 0 <= i < |workers| ==>
      workers[i].workerId in store && workers[i] == Shown(store[workers[i].workerId].record)
  }

  lemma AllShownSnoc(workers: seq<Record>, store: Store, id: string)
    requires Keyed(store) && AllShown(workers, store) && id in store
    ensures AllShown(workers + [Shown(store[id].record)], store)
  {
  }

  lemma ListedStep(store: Store, now: nat, keys: set<string>, key: string)
    requires keys <= store.Keys && key in keys
    ensures Listed(store, now) - (keys - {key})
            == Listed(store, now) - keys + (if now < store[key].expiresAt then {key} else {})
    ensures key !in Listed(store, now) - keys
  {
  }

  /** `concurrency || 1` */
  function ConcurrencyOf(r: Record): nat {
    if r.concurrency.Some? && r.concurrency.value != 0 then r.concurrency.value else 1
  }
}
