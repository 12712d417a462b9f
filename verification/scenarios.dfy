/** What a counting observer registered with the driver ends up reporting:
    the driver's deliveries to one hook, fed through the counters' update. */
module Scenarios {
  import opened Events
  import opened Counter
  import opened Driver

  /** `n` good rows, and nothing else, on their own. */
  lemma {:induction false} ReplayGoodRows(n: nat)
    ensures Replay(Repeat(RowIterated(None), n)) == Zero.(rowsIterated := n)
  {
    if n > 0 {
      ReplayGoodRows(n - 1);
      ReplayStep(Repeat(RowIterated(None), n - 1), RowIterated(None));
      assert Repeat(RowIterated(None), n - 1) + [RowIterated(None)] == Repeat(RowIterated(None), n);
    }
  }

  /** Reading a cursor of `n` good rows to its end adds exactly `n` to the
      rows-iterated counter; the end of data touches no counter. */
  lemma CursorCounts(es: seq<Event>, n: nat)
    ensures Replay(es + CursorEvents(Repeat(None, n) + [Some(EOF)]))
            == Replay(es).(rowsIterated := Replay(es).rowsIterated + n)
  {
    ExhaustedCursor(n);
    ReplayAppend(es, Repeat(RowIterated(None), n));
    ReplayGoodRows(n);
  }

  /** A hook registered once receives each emitted event exactly once. */
  lemma ReceivedOnce(ds: seq<Delivery>, h: HookId, e: Event)
    ensures Received(ds + Fanout([h], e), h) == Received(ds, h) + [e]
  {
    ReceivedAppend(ds, Fanout([h], e), h);
    ReceivedFanout([h], e, h);
    assert [h][..0] == [];
  }

  /** The counters a hook holds after the callbacks delivered to it. */
  function CountersOf(ds: seq<Delivery>, h: HookId): (c: Counters)
  {
    Replay(Received(ds, h))
  }

  /** Delivering `e` to a driver whose only hook is `h` applies the update
      for `e` to that hook's counters. */
  lemma CountersStep(ds: seq<Delivery>, ds': seq<Delivery>, hooks: seq<HookId>, h: HookId,
                     e: Event, c: Counters)
    requires hooks == [h] && ds' == ds + Fanout(hooks, e) && CountersOf(ds, h) == c
    ensures CountersOf(ds', h) == Record(c, e)
  {
    ReceivedOnce(ds, h, e);
    ReplayStep(Received(ds, h), e);
  }

  /** The updates of the statement life cycle below, in order. */
  lemma LifecycleCounts(query: string, execTime: Duration, queryTime: Duration)
    ensures Record(Record(Record(Record(Record(Record(Zero,
              Event.ConnOpened(None)), Event.StmtPrepared(query, None)),
              Event.Execed(execTime, query, None)), Event.Queried(queryTime, query, None)),
              Event.RowIterated(None)), Event.StmtClosed(None))
            == Zero.(openConns := 1, totalConns := 1, totalStmts := 1,
                     queries := 1, execs := 1, rowsIterated := 1)
  {
  }

  /** A statement's life through a driver with one counting hook: open a
      connection, prepare, exec, query, read the one row and the end of data,
      close the cursor and the statement. The counters then show one
      connection open, one statement prepared and closed, one exec, one query
      and one row; closing the cursor counts nothing. */
  method StatementLifecycle(open: OpenFunc, name: string, query: string, hook: HookId,
                            stmt: BackendStmt, rows: BackendRows, result: BackendResult,
                            execTime: Duration, queryTime: Duration)
    returns (c: Counters)
    requires open(name).err == None
    ensures c == Zero.(openConns := 1, totalConns := 1, totalStmts := 1,
                       queries := 1, execs := 1, rowsIterated := 1)
  {
    var drv := new StatsDriver(open);
    drv.AddHook(hook);
    assert drv.hooks == [hook];
    ghost var want := Zero;
    var ds := drv.delivered;

    var conn, _ := drv.Open(name);
    CountersStep(ds, drv.delivered, drv.hooks, hook, Event.ConnOpened(None), want);
    want, ds := Record(want, Event.ConnOpened(None)), drv.delivered;

    var s, _ := conn.proxy.Prepare(query, Reply(stmt, None));
    CountersStep(ds, drv.delivered, drv.hooks, hook, Event.StmtPrepared(query, None), want);
    want, ds := Record(want, Event.StmtPrepared(query, None)), drv.delivered;

    var _, _ := s.proxy.Exec(execTime, Reply(result, None));
    CountersStep(ds, drv.delivered, drv.hooks, hook, Event.Execed(execTime, query, None), want);
    want, ds := Record(want, Event.Execed(execTime, query, None)), drv.delivered;

    var r, _ := s.proxy.Query(queryTime, Reply(rows, None));
    CountersStep(ds, drv.delivered, drv.hooks, hook, Event.Queried(queryTime, query, None), want);
    want, ds := Record(want, Event.Queried(queryTime, query, None)), drv.delivered;

    var _ := r.proxy.Next(None);
    CountersStep(ds, drv.delivered, drv.hooks, hook, Event.RowIterated(None), want);
    want, ds := Record(want, Event.RowIterated(None)), drv.delivered;

    var _ := r.proxy.Next(Some(EOF));
    var _ := r.proxy.Close(None);
    var _ := s.proxy.Close(None);
    CountersStep(ds, drv.delivered, drv.hooks, hook, Event.StmtClosed(None), want);
    want := Record(want, Event.StmtClosed(None));
    LifecycleCounts(query, execTime, queryTime);

    c := CountersOf(drv.delivered, hook);
  }
}
