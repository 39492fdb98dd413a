/**
 * The bounded diagnostic log kept by the root component: `addLog` gives each
 * entry the next id of a session-wide counter and keeps the last 100
 * entries; `clearLogs` empties the log and records that it did.
 */
module LogRecorder {
  import opened Wrappers
  import opened Types

  const MaxLogs: nat := 100

  /** What a caller asks to be recorded: `addLog(level, message, data)`. */
  datatype LogRequest = LogRequest(level: LogLevel, message: string, data: Option<string>)

  /** The log and the id counter (`logIdRef.current`). */
  datatype LogState = LogState(logs: seq<LogEntry>, counter: nat)

  const Initial: LogState := LogState([], 0)

  /** `.slice(-n)`: the last `min(n, |s|)` elements, in their order. */
  function LastN<T>(s: seq<T>, n: nat): (r: seq<T>)
    ensures |r| == if |s| <= n then |s| else n
    ensures r == s[|s| - |r|..]
  {
    if |s| <= n then s else s[|s| - n..]
  }

  function EntryOf(id: nat, r: LogRequest): LogEntry {
    LogEntry(id, r.level, r.message, r.data)
  }

  /** One `addLog`: increment the counter, append the entry carrying it, keep the last 100. */
  function Record(st: LogState, r: LogRequest): (st': LogState)
    ensures st'.counter == st.counter + 1
  {
    LogState(LastN(st.logs + [EntryOf(st.counter + 1, r)], MaxLogs), st.counter + 1)
  }

  /** Several `addLog` calls in a row. */
  function RecordAll(st: LogState, reqs: seq<LogRequest>): (st': LogState)
    ensures st'.counter == st.counter + |reqs|
    ensures reqs != [] ==> 1 <= |st'.logs| <= MaxLogs
    decreases |reqs|
  {
    if reqs == [] then st else RecordAll(Record(st, reqs[0]), reqs[1..])
  }

  /** `clearLogs()`: the log is emptied, then one entry announcing it is added; the counter runs on. */
  function Clear(st: LogState): (st': LogState)
    ensures st'.counter == st.counter + 1
    ensures |st'.logs| == 1 && st'.logs[0] == EntryOf(st.counter + 1, ClearedRequest)
  {
    Record(LogState([], st.counter), ClearedRequest)
  }

  /** The request `clearLogs()` records. */
  const ClearedRequest: LogRequest := LogRequest(Info, "Logs cleared", None)

  /** The log invariant: at most 100 entries, ids strictly increasing, positive and issued by the counter. */
  ghost predicate ValidState(st: LogState) {
    |st.logs| <= MaxLogs && IdsIssued(st.logs, st.counter)
  }

  /** Ids strictly increasing, positive and at most `counter`. */
  ghost predicate IdsIssued(logs: seq<LogEntry>, counter: nat) {
    && (forall i, j :: 0 <= i < j < |logs| ==> logs[i].id < logs[j].id)
    && (forall i :: 0 <= i < |logs| ==> 1 <= logs[i].id <= counter)
  }

  /** Dropping the oldest entries keeps the ids in order. */
  lemma SuffixKeepsIds(logs: seq<LogEntry>, counter: nat, d: nat)
    requires IdsIssued(logs, counter) && d <= |logs|
    ensures IdsIssued(logs[d..], counter)
  {
    var kept := logs[d..];
    forall i, j | 0 <= i < j < |kept| ensures kept[i].id < kept[j].id {
      assert kept[i] == logs[d + i] && kept[j] == logs[d + j];
    }
    forall i | 0 <= i < |kept| ensures 1 <= kept[i].id <= counter {
      assert kept[i] == logs[d + i];
    }
  }

  /** Appending the entry the next counter value names keeps the ids in order. */
  lemma SnocKeepsIds(logs: seq<LogEntry>, counter: nat, e: LogEntry)
    requires IdsIssued(logs, counter) && e.id == counter + 1
    ensures IdsIssued(logs + [e], counter + 1)
  {
    var all := logs + [e];
    forall i, j | 0 <= i < j < |all| ensures all[i].id < all[j].id {
      assert all[i] == logs[i];
      if j < |logs| {
        assert all[j] == logs[j];
      }
    }
    forall i | 0 <= i < |all| ensures 1 <= all[i].id <= counter + 1 {
      if i < |logs| {
        assert all[i] == logs[i];
      }
    }
  }

  /** One `addLog` keeps the newest of the old entries and appends the new one. */
  lemma RecordShape(st: LogState, r: LogRequest)
    ensures |Record(st, r).logs| == (if |st.logs| < MaxLogs then |st.logs| + 1 else MaxLogs)
    ensures Record(st, r).logs == st.logs[|st.logs| + 1 - |Record(st, r).logs|..] + [EntryOf(st.counter + 1, r)]
  {
    var e := EntryOf(st.counter + 1, r);
    var all := st.logs + [e];
    var d := |all| - |LastN(all, MaxLogs)|;
    assert LastN(all, MaxLogs) == all[d..];
    assert all[d..] == st.logs[d..] + [e];
  }

  /** The ids after one `addLog` are still increasing and issued by the counter. */
  lemma RecordKeepsIds(st: LogState, r: LogRequest)
    requires ValidState(st)
    ensures ValidState(Record(st, r))
  {
    RecordShape(st, r);
    var d := |st.logs| + 1 - |Record(st, r).logs|;
    SuffixKeepsIds(st.logs, st.counter, d);
    SnocKeepsIds(st.logs[d..], st.counter, EntryOf(st.counter + 1, r));
  }

  /**
   * `addLog` keeps the invariant; the new entry is last, carries the
   * request and an id above every earlier one, and the entries that survive
   * are the newest of the old ones in their old order.
   */
  lemma RecordPreservesValid(st: LogState, r: LogRequest)
    requires ValidState(st)
    ensures var st' := Record(st, r);
      && ValidState(st')
      && st'.counter == st.counter + 1
      && |st'.logs| == (if |st.logs| < MaxLogs then |st.logs| + 1 else MaxLogs)
      && st'.logs[|st'.logs| - 1] == EntryOf(st.counter + 1, r)
      && (forall i :: 0 <= i < |st.logs| ==> st.logs[i].id < st'.logs[|st'.logs| - 1].id)
      && st'.logs[..|st'.logs| - 1] == st.logs[|st.logs| + 1 - |st'.logs|..]
  {
    RecordShape(st, r);
    RecordKeepsIds(st, r);
    var logs' := Record(st, r).logs;
    var kept := st.logs[|st.logs| + 1 - |logs'|..];
    assert logs'[..|logs'| - 1] == kept;
  }

  /** Recording into an empty log leaves just the new entry. */
  lemma RecordIntoEmpty(counter: nat, r: LogRequest)
    ensures Record(LogState([], counter), r) == LogState([EntryOf(counter + 1, r)], counter + 1)
  {
    var e := EntryOf(counter + 1, r);
    var none: seq<LogEntry> := [];
    assert none + [e] == [e];
    assert LastN([e], MaxLogs) == [e];
  }

  /** `clearLogs` leaves exactly one `info` entry, whose id exceeds every earlier id. */
  lemma ClearSpec(st: LogState)
    requires ValidState(st)
    ensures ValidState(Clear(st))
    ensures Clear(st).counter == st.counter + 1
    ensures |Clear(st).logs| == 1 && Clear(st).logs[0] == EntryOf(st.counter + 1, ClearedRequest)
    ensures forall i :: 0 <= i < |st.logs| ==> st.logs[i].id < Clear(st).logs[0].id
  {
    RecordIntoEmpty(st.counter, ClearedRequest);
    var st' := LogState([EntryOf(st.counter + 1, ClearedRequest)], st.counter + 1);
    assert ValidState(st');
  }

  /** Recording zero, one or two requests, unfolded. */
  lemma RecordAllShort(st: LogState, a: LogRequest, b: LogRequest)
    ensures RecordAll(st, []) == st
    ensures RecordAll(st, [a]) == Record(st, a)
    ensures RecordAll(st, [a, b]) == Record(Record(st, a), b)
  {
    assert [a, b][1..] == [b];
    assert [b][1..] == [];
    calc {
      RecordAll(st, [a, b]);
      RecordAll(Record(st, a), [b]);
      RecordAll(Record(Record(st, a), b), []);
    }
  }

  /** Recording `reqs` then `r` is recording `reqs + [r]`. */
  lemma {:induction false} RecordAllSnoc(st: LogState, reqs: seq<LogRequest>, r: LogRequest)
    ensures RecordAll(st, reqs + [r]) == Record(RecordAll(st, reqs), r)
    decreases |reqs|
  {
    if reqs == [] {
      assert [r][1..] == [];
    } else {
      assert (reqs + [r])[1..] == reqs[1..] + [r];
      RecordAllSnoc(Record(st, reqs[0]), reqs[1..], r);
    }
  }

  /** The last `min(n, 100)` of `n` requests, each with the id its position in the session gives it. */
  function Window(reqs: seq<LogRequest>): (w: seq<LogEntry>)
    ensures |w| == (if |reqs| <= MaxLogs then |reqs| else MaxLogs)
  {
    var n := |reqs|;
    var k := if n <= MaxLogs then n else MaxLogs;
    seq(k, i requires 0 <= i < k => EntryOf(n - k + i + 1, reqs[n - k + i]))
  }

  lemma WindowSnoc(front: seq<LogRequest>, r: LogRequest)
    ensures Window(front + [r]) == LastN(Window(front) + [EntryOf(|front| + 1, r)], MaxLogs)
  {
    var reqs := front + [r];
    var all := Window(front) + [EntryOf(|front| + 1, r)];
    var lhs, rhs := Window(reqs), LastN(all, MaxLogs);
    assert |lhs| == |rhs|;
    var w := Window(front);
    forall i | 0 <= i < |lhs| ensures lhs[i] == rhs[i] {
      var j := |all| - |rhs| + i;
      assert rhs[i] == all[j];
      var p := |reqs| - |lhs| + i;
      assert lhs[i] == EntryOf(p + 1, reqs[p]);
      if j < |w| {
        assert all[j] == w[j];
        assert p == |front| - |w| + j;
        assert reqs[p] == front[p];
      } else {
        assert p == |front|;
        assert all[j] == EntryOf(|front| + 1, r);
      }
    }
  }

  /**
   * From a fresh session, after `n` calls the counter is `n`, and the log
   * holds the last `min(n, 100)` requests in order, with consecutive ids
   * ending at `n`.
   */
  lemma {:induction false} RecordAllFromInitial(reqs: seq<LogRequest>)
    ensures RecordAll(Initial, reqs) == LogState(Window(reqs), |reqs|)
    decreases |reqs|
  {
    if reqs == [] {
      assert Window(reqs) == [];
    } else {
      var front, r := reqs[..|reqs| - 1], reqs[|reqs| - 1];
      assert front + [r] == reqs;
      RecordAllSnoc(Initial, front, r);
      RecordAllFromInitial(front);
      WindowSnoc(front, r);
    }
  }

  /** Appending 105 entries to a fresh log keeps exactly ids 6 to 105, in order. */
  lemma Record105(reqs: seq<LogRequest>)
    requires |reqs| == 105
    ensures var st := RecordAll(Initial, reqs);
      && |st.logs| == 100
      && st.logs[0].id == 6
      && st.logs[99].id == 105
      && forall i :: 0 <= i < 100 ==> st.logs[i].id == i + 6 && st.logs[i].message == reqs[i + 5].message
  {
    RecordAllFromInitial(reqs);
    var w := Window(reqs);
    assert forall i :: 0 <= i < 100 ==> w[i] == EntryOf(i + 6, reqs[i + 5]);
  }

  /** The log of the root component, changed in place by `addLog` and `clearLogs`. */
  class Recorder {
    var logs: seq<LogEntry>
    var counter: nat

    function State(): LogState
      reads this
    {
      LogState(logs, counter)
    }

    ghost predicate Valid()
      reads this
    {
      ValidState(State())
    }

    constructor ()
      ensures Valid() && State() == Initial
    {
      logs, counter := [], 0;
    }

    /** `addLog(level, message, data)`. */
    method AddLog(level: LogLevel, message: string, data: Option<string>)
      requires Valid()
      modifies this
      ensures Valid()
      ensures State() == Record(old(State()), LogRequest(level, message, data))
    {
      RecordPreservesValid(State(), LogRequest(level, message, data));
      counter := counter + 1;
      logs := LastN(logs + [LogEntry(counter, level, message, data)], MaxLogs);
    }

    /** Records a request built by a caller. */
    method Add(r: LogRequest)
      requires Valid()
      modifies this
      ensures Valid()
      ensures State() == Record(old(State()), r)
    {
      AddLog(r.level, r.message, r.data);
    }

    /** `clearLogs()`. */
    method ClearLogs()
      requires Valid()
      modifies this
      ensures Valid()
      ensures State() == Clear(old(State()))
    {
      ghost var before := State();
      logs := [];
      assert State() == LogState([], before.counter);
      Add(ClearedRequest);
    }
  }
}
