/** The reference observer: a CounterHook keeps eighteen counters, one
    success/error pair per event kind plus an "open" gauge for connections,
    statements and transactions.

    The first half of the module is the specification on values: `Record` is
    the update one callback applies, `Replay` folds it over the callbacks
    received from the zero state, and `Tally` defines every counter
    independently as a count of received events. The second half is the
    class whose callbacks update its fields in place. */
module Counter {
  import opened Events

  /** A snapshot of the eighteen counters, in the order the struct declares them. */
  datatype Counters = Counters(
    openConns: int, totalConns: int,
    openStmts: int, totalStmts: int,
    openTxs: int, totalTxs: int, committedTxs: int, rolledbackTxs: int,
    queries: int, execs: int, rowsIterated: int,
    connErrs: int, stmtErrs: int, txOpenErrs: int, txCloseErrs: int,
    queryErrs: int, execErrs: int, rowErrs: int)

  /** The zero value of the struct. */
  const Zero := Counters(0, 0, 0, 0, 0, 0, 0, 0, 0, 0, 0, 0, 0, 0, 0, 0, 0, 0)

  /** The update applied by the callback that receives `e`. */
  function Record(c: Counters, e: Event): (c': Counters)
  {
    match e
    case ConnOpened(err) =>
      if err.None? then c.(openConns := c.openConns + 1, totalConns := c.totalConns + 1)
      else c.(connErrs := c.connErrs + 1)
    case ConnClosed(_) => c.(openConns := c.openConns - 1)
    case StmtPrepared(_, err) =>
      if err.None? then c.(openStmts := c.openStmts + 1, totalStmts := c.totalStmts + 1)
      else c.(stmtErrs := c.stmtErrs + 1)
    case StmtClosed(_) => c.(openStmts := c.openStmts - 1)
    case TxBegan(err) =>
      if err.None? then c.(openTxs := c.openTxs + 1, totalTxs := c.totalTxs + 1)
      else c.(txOpenErrs := c.txOpenErrs + 1)
    case TxCommitted(err) =>
      if err.None? then c.(openTxs := c.openTxs - 1, committedTxs := c.committedTxs + 1)
      else c.(openTxs := c.openTxs - 1, txCloseErrs := c.txCloseErrs + 1)
    case TxRolledback(err) =>
      if err.None? then c.(openTxs := c.openTxs - 1, rolledbackTxs := c.rolledbackTxs + 1)
      else c.(openTxs := c.openTxs - 1, txCloseErrs := c.txCloseErrs + 1)
    case Queried(_, _, err) =>
      if err.None? then c.(queries := c.queries + 1) else c.(queryErrs := c.queryErrs + 1)
    case Execed(_, _, err) =>
      if err.None? then c.(execs := c.execs + 1) else c.(execErrs := c.execErrs + 1)
    case RowIterated(err) =>
      if err.None? then c.(rowsIterated := c.rowsIterated + 1) else c.(rowErrs := c.rowErrs + 1)
  }

  /** The counters after receiving `es`, in order, starting from the zero value. */
  function Replay(es: seq<Event>): (c: Counters)
  {
    if es == [] then Zero else Record(Replay(es[..|es| - 1]), es[|es| - 1])
  }

  lemma ReplayStep(es: seq<Event>, e: Event)
    ensures Replay(es + [e]) == Record(Replay(es), e)
  {
    assert (es + [e])[..|es|] == es;
  }

  /** What an event is, as far as the counters are concerned: its kind and outcome. */
  datatype Tag =
    | ConnOpenOk | ConnOpenErr | ConnClose
    | StmtPrepareOk | StmtPrepareErr | StmtClose
    | TxBeginOk | TxBeginErr | TxCommitOk | TxCommitErr | TxRollbackOk | TxRollbackErr
    | QueryOk | QueryErr | ExecOk | ExecErr | RowOk | RowErr

  function TagOf(e: Event): (t: Tag)
    ensures t in {ConnClose, StmtClose} || (e.Succeeded() <==> t in {
      ConnOpenOk, StmtPrepareOk, TxBeginOk, TxCommitOk, TxRollbackOk, QueryOk, ExecOk, RowOk})
  {
    match e
    case ConnOpened(err) => if err.None? then ConnOpenOk else ConnOpenErr
    case ConnClosed(_) => ConnClose
    case StmtPrepared(_, err) => if err.None? then StmtPrepareOk else StmtPrepareErr
    case StmtClosed(_) => StmtClose
    case TxBegan(err) => if err.None? then TxBeginOk else TxBeginErr
    case TxCommitted(err) => if err.None? then TxCommitOk else TxCommitErr
    case TxRolledback(err) => if err.None? then TxRollbackOk else TxRollbackErr
    case Queried(_, _, err) => if err.None? then QueryOk else QueryErr
    case Execed(_, _, err) => if err.None? then ExecOk else ExecErr
    case RowIterated(err) => if err.None? then RowOk else RowErr
  }

  /** The number of events in `es` with tag `t`. */
  function Num(es: seq<Event>, t: Tag): (n: nat)
    ensures n <= |es|
  {
    if es == [] then 0
    else Num(es[..|es| - 1], t) + (if TagOf(es[|es| - 1]) == t then 1 else 0)
  }

  lemma {:induction false} NumAppend(es: seq<Event>, more: seq<Event>, t: Tag)
    ensures Num(es + more, t) == Num(es, t) + Num(more, t)
  {
    if more == [] {
      assert es + more == es;
    } else {
      var init := more[..|more| - 1];
      assert (es + more)[..|es + more| - 1] == es + init;
      NumAppend(es, init, t);
    }
  }

  /** Reference definition: every counter as a count of the events received.
      A gauge is the successful opens minus every close, whatever its outcome. */
  function Tally(es: seq<Event>): (c: Counters)
  {
    Counters(
      openConns := Num(es, ConnOpenOk) - Num(es, ConnClose),
      totalConns := Num(es, ConnOpenOk),
      openStmts := Num(es, StmtPrepareOk) - Num(es, StmtClose),
      totalStmts := Num(es, StmtPrepareOk),
      openTxs := Num(es, TxBeginOk) - Num(es, TxCommitOk) - Num(es, TxCommitErr)
                 - Num(es, TxRollbackOk) - Num(es, TxRollbackErr),
      totalTxs := Num(es, TxBeginOk),
      committedTxs := Num(es, TxCommitOk),
      rolledbackTxs := Num(es, TxRollbackOk),
      queries := Num(es, QueryOk),
      execs := Num(es, ExecOk),
      rowsIterated := Num(es, RowOk),
      connErrs := Num(es, ConnOpenErr),
      stmtErrs := Num(es, StmtPrepareErr),
      txOpenErrs := Num(es, TxBeginErr),
      txCloseErrs := Num(es, TxCommitErr) + Num(es, TxRollbackErr),
      queryErrs := Num(es, QueryErr),
      execErrs := Num(es, ExecErr),
      rowErrs := Num(es, RowErr))
  }

  /** Folding the callbacks' updates from the zero value gives the counts. */
  lemma {:induction false} ReplayIsTally(es: seq<Event>)
    ensures Replay(es) == Tally(es)
  {
    if es != [] {
      ReplayIsTally(es[..|es| - 1]);
    }
  }

  /** Every counter, gauges included, adds up over concatenated histories. */
  function Plus(a: Counters, b: Counters): (c: Counters)
  {
    Counters(
      a.openConns + b.openConns, a.totalConns + b.totalConns,
      a.openStmts + b.openStmts, a.totalStmts + b.totalStmts,
      a.openTxs + b.openTxs, a.totalTxs + b.totalTxs,
      a.committedTxs + b.committedTxs, a.rolledbackTxs + b.rolledbackTxs,
      a.queries + b.queries, a.execs + b.execs, a.rowsIterated + b.rowsIterated,
      a.connErrs + b.connErrs, a.stmtErrs + b.stmtErrs,
      a.txOpenErrs + b.txOpenErrs, a.txCloseErrs + b.txCloseErrs,
      a.queryErrs + b.queryErrs, a.execErrs + b.execErrs, a.rowErrs + b.rowErrs)
  }

  lemma RecordPlus(a: Counters, b: Counters, e: Event)
    ensures Record(Plus(a, b), e) == Plus(a, Record(b, e))
  {
  }

  /** The counters after `es` then `more` are those after `es` plus those
      after `more` alone: no update depends on the state it is applied to. */
  lemma {:induction false} ReplayAppend(es: seq<Event>, more: seq<Event>)
    ensures Replay(es + more) == Plus(Replay(es), Replay(more))
  {
    if more == [] {
      assert es + more == es;
    } else {
      var init, last := more[..|more| - 1], more[|more| - 1];
      assert es + more == (es + init) + [last];
      assert init + [last] == more;
      ReplayAppend(es, init);
      ReplayStep(es + init, last);
      ReplayStep(init, last);
      RecordPlus(Replay(es), Replay(init), last);
    }
  }

  /** The gauge invariants of every state reachable from the zero value. */
  lemma {:induction false} GaugeInvariants(es: seq<Event>)
    ensures Replay(es).openConns == Replay(es).totalConns - Num(es, ConnClose)
    ensures Replay(es).openStmts == Replay(es).totalStmts - Num(es, StmtClose)
    ensures Replay(es).openTxs == Replay(es).totalTxs - Replay(es).committedTxs
                                  - Replay(es).rolledbackTxs - Replay(es).txCloseErrs
  {
    ReplayIsTally(es);
  }

  /** A gauge stays non-negative exactly while the closes received do not
      outnumber the successful opens; nothing in the callbacks enforces it. */
  lemma {:induction false} GaugesNonNegativeIff(es: seq<Event>)
    ensures Replay(es).openConns >= 0 <==> Num(es, ConnClose) <= Num(es, ConnOpenOk)
    ensures Replay(es).openStmts >= 0 <==> Num(es, StmtClose) <= Num(es, StmtPrepareOk)
    ensures Replay(es).openTxs >= 0 <==>
      Num(es, TxCommitOk) + Num(es, TxCommitErr) + Num(es, TxRollbackOk) + Num(es, TxRollbackErr)
      <= Num(es, TxBeginOk)
  {
    ReplayIsTally(es);
  }

  /** Every counter other than the three open gauges is at least as large in `b`. */
  predicate NonGaugesBelow(a: Counters, b: Counters)
  {
    && a.totalConns <= b.totalConns && a.totalStmts <= b.totalStmts
    && a.totalTxs <= b.totalTxs && a.committedTxs <= b.committedTxs
    && a.rolledbackTxs <= b.rolledbackTxs && a.queries <= b.queries
    && a.execs <= b.execs && a.rowsIterated <= b.rowsIterated
    && a.connErrs <= b.connErrs && a.stmtErrs <= b.stmtErrs
    && a.txOpenErrs <= b.txOpenErrs && a.txCloseErrs <= b.txCloseErrs
    && a.queryErrs <= b.queryErrs && a.execErrs <= b.execErrs && a.rowErrs <= b.rowErrs
  }

  /** No callback decreases a success or error counter, and every callback
      except the two closes moves the sum of all fifteen of them by exactly one
      (a close touches its gauge only). */
  lemma RecordMonotone(c: Counters, e: Event)
    ensures NonGaugesBelow(c, Record(c, e))
    ensures NonGaugeSum(Record(c, e)) == NonGaugeSum(c) + (if e.ConnClosed? || e.StmtClosed? then 0 else 1)
  {
  }

  function NonGaugeSum(c: Counters): (n: int)
  {
    c.totalConns + c.totalStmts + c.totalTxs + c.committedTxs + c.rolledbackTxs
    + c.queries + c.execs + c.rowsIterated + c.connErrs + c.stmtErrs + c.txOpenErrs
    + c.txCloseErrs + c.queryErrs + c.execErrs + c.rowErrs
  }

  /** Receiving more callbacks never decreases a success or error counter. */
  lemma {:induction false} ReplayMonotone(es: seq<Event>, more: seq<Event>)
    ensures NonGaugesBelow(Replay(es), Replay(es + more))
  {
    if more == [] {
      assert es + more == es;
    } else {
      var init := more[..|more| - 1];
      var last := more[|more| - 1];
      assert es + more == (es + init) + [last];
      ReplayMonotone(es, init);
      ReplayStep(es + init, last);
      RecordMonotone(Replay(es + init), last);
    }
  }

  /** The transaction scenario of the unit tests: begin two transactions, roll
      back one and commit the other. */
  lemma TwoTransactions()
    ensures var c := Replay([TxBegan(None), TxBegan(None), TxRolledback(None), TxCommitted(None)]);
      c.totalTxs == 2 && c.openTxs == 0 && c.committedTxs == 1 && c.rolledbackTxs == 1
      && c.txOpenErrs == 0 && c.txCloseErrs == 0
  {
    var b, r, k := TxBegan(None), TxRolledback(None), TxCommitted(None);
    ReplayStep([], b);
    assert [] + [b] == [b];
    ReplayStep([b], b);
    ReplayStep([b, b], r);
    assert [b] + [b] == [b, b];
    ReplayStep([b, b, r], k);
    assert [b, b] + [r] == [b, b, r];
    assert [b, b, r] + [k] == [b, b, r, k];
  }

  /** The reference observer. Every field is a counter the callbacks update in
      place; `history` is every callback received so far, in order. */
  class CounterHook {
    var openConns: int
    var totalConns: int
    var openStmts: int
    var totalStmts: int
    var openTxs: int
    var totalTxs: int
    var committedTxs: int
    var rolledbackTxs: int
    var queries: int
    var execs: int
    var rowsIterated: int

    var connErrs: int
    var stmtErrs: int
    var txOpenErrs: int
    var txCloseErrs: int
    var queryErrs: int
    var execErrs: int
    var rowErrs: int

    ghost var history: seq<Event>

    function Snapshot(): (c: Counters)
      reads this
    {
      Counters(openConns, totalConns, openStmts, totalStmts,
               openTxs, totalTxs, committedTxs, rolledbackTxs,
               queries, execs, rowsIterated,
               connErrs, stmtErrs, txOpenErrs, txCloseErrs,
               queryErrs, execErrs, rowErrs)
    }

    /** The fields are what the callbacks received so far make them. */
    ghost predicate Valid()
      reads this
    {
      Snapshot() == Replay(history)
    }

    /** The zero value `CounterHook{}`. */
    constructor ()
      ensures Valid() && history == [] && Snapshot() == Zero
    {
      openConns, totalConns, openStmts, totalStmts := 0, 0, 0, 0;
      openTxs, totalTxs, committedTxs, rolledbackTxs := 0, 0, 0, 0;
      queries, execs, rowsIterated := 0, 0, 0;
      connErrs, stmtErrs, txOpenErrs, txCloseErrs := 0, 0, 0, 0;
      queryErrs, execErrs, rowErrs := 0, 0, 0;
      history := [];
    }

    // Read accessors. Each returns one counter, characterised by the
    // callbacks received so far.

    function OpenConns(): (n: int)
      reads this
      requires Valid()
      ensures n == Num(history, ConnOpenOk) - Num(history, ConnClose)
    {
      ReplayIsTally(history); openConns
    }

    function TotalConns(): (n: int)
      reads this
      requires Valid()
      ensures n == Num(history, ConnOpenOk)
    {
      ReplayIsTally(history); totalConns
    }

    function OpenStmts(): (n: int)
      reads this
      requires Valid()
      ensures n == Num(history, StmtPrepareOk) - Num(history, StmtClose)
    {
      ReplayIsTally(history); openStmts
    }

    function TotalStmts(): (n: int)
      reads this
      requires Valid()
      ensures n == Num(history, StmtPrepareOk)
    {
      ReplayIsTally(history); totalStmts
    }

    function OpenTxs(): (n: int)
      reads this
      requires Valid()
      ensures n == Num(history, TxBeginOk) - Num(history, TxCommitOk) - Num(history, TxCommitErr)
                   - Num(history, TxRollbackOk) - Num(history, TxRollbackErr)
    {
      ReplayIsTally(history); openTxs
    }

    function TotalTxs(): (n: int)
      reads this
      requires Valid()
      ensures n == Num(history, TxBeginOk)
    {
      ReplayIsTally(history); totalTxs
    }

    function CommittedTxs(): (n: int)
      reads this
      requires Valid()
      ensures n == Num(history, TxCommitOk)
    {
      ReplayIsTally(history); committedTxs
    }

    function RolledbackTxs(): (n: int)
      reads this
      requires Valid()
      ensures n == Num(history, TxRollbackOk)
    {
      ReplayIsTally(history); rolledbackTxs
    }

    function Queries(): (n: int)
      reads this
      requires Valid()
      ensures n == Num(history, QueryOk)
    {
      ReplayIsTally(history); queries
    }

    function Execs(): (n: int)
      reads this
      requires Valid()
      ensures n == Num(history, ExecOk)
    {
      ReplayIsTally(history); execs
    }

    function RowsIterated(): (n: int)
      reads this
      requires Valid()
      ensures n == Num(history, RowOk)
    {
      ReplayIsTally(history); rowsIterated
    }

    function ConnErrs(): (n: int)
      reads this
      requires Valid()
      ensures n == Num(history, ConnOpenErr)
    {
      ReplayIsTally(history); connErrs
    }

    function StmtErrs(): (n: int)
      reads this
      requires Valid()
      ensures n == Num(history, StmtPrepareErr)
    {
      ReplayIsTally(history); stmtErrs
    }

    function TxOpenErrs(): (n: int)
      reads this
      requires Valid()
      ensures n == Num(history, TxBeginErr)
    {
      ReplayIsTally(history); txOpenErrs
    }

    function TxCloseErrs(): (n: int)
      reads this
      requires Valid()
      ensures n == Num(history, TxCommitErr) + Num(history, TxRollbackErr)
    {
      ReplayIsTally(history); txCloseErrs
    }

    function QueryErrs(): (n: int)
      reads this
      requires Valid()
      ensures n == Num(history, QueryErr)
    {
      ReplayIsTally(history); queryErrs
    }

    function ExecErrs(): (n: int)
      reads this
      requires Valid()
      ensures n == Num(history, ExecErr)
    {
      ReplayIsTally(history); execErrs
    }

    function RowErrs(): (n: int)
      reads this
      requires Valid()
      ensures n == Num(history, RowErr)
    {
      ReplayIsTally(history); rowErrs
    }

    // Hook callbacks. Each is one sequential update of the fields.

    method ConnOpened(err: Option<Error>)
      requires Valid()
      modifies this
      ensures Valid() && history == old(history) + [Event.ConnOpened(err)]
      ensures err.None? ==> Snapshot() == old(Snapshot()).(openConns := old(openConns) + 1,
                                                          totalConns := old(totalConns) + 1)
      ensures err.Some? ==> Snapshot() == old(Snapshot()).(connErrs := old(connErrs) + 1)
    {
      ReplayStep(history, Event.ConnOpened(err));
      if err.None? {
        openConns := openConns + 1;
        totalConns := totalConns + 1;
      } else {
        connErrs := connErrs + 1;
      }
      history := history + [Event.ConnOpened(err)];
    }

    method ConnClosed(err: Option<Error>)
      requires Valid()
      modifies this
      ensures Valid() && history == old(history) + [Event.ConnClosed(err)]
      ensures Snapshot() == old(Snapshot()).(openConns := old(openConns) - 1)
    {
      ReplayStep(history, Event.ConnClosed(err));
      openConns := openConns - 1;
      history := history + [Event.ConnClosed(err)];
    }

    method StmtPrepared(query: string, err: Option<Error>)
      requires Valid()
      modifies this
      ensures Valid() && history == old(history) + [Event.StmtPrepared(query, err)]
      ensures err.None? ==> Snapshot() == old(Snapshot()).(openStmts := old(openStmts) + 1,
                                                          totalStmts := old(totalStmts) + 1)
      ensures err.Some? ==> Snapshot() == old(Snapshot()).(stmtErrs := old(stmtErrs) + 1)
    {
      ReplayStep(history, Event.StmtPrepared(query, err));
      if err.None? {
        openStmts := openStmts + 1;
        totalStmts := totalStmts + 1;
      } else {
        stmtErrs := stmtErrs + 1;
      }
      history := history + [Event.StmtPrepared(query, err)];
    }

    method StmtClosed(err: Option<Error>)
      requires Valid()
      modifies this
      ensures Valid() && history == old(history) + [Event.StmtClosed(err)]
      ensures Snapshot() == old(Snapshot()).(openStmts := old(openStmts) - 1)
    {
      ReplayStep(history, Event.StmtClosed(err));
      openStmts := openStmts - 1;
      history := history + [Event.StmtClosed(err)];
    }

    method TxBegan(err: Option<Error>)
      requires Valid()
      modifies this
      ensures Valid() && history == old(history) + [Event.TxBegan(err)]
      ensures err.None? ==> Snapshot() == old(Snapshot()).(openTxs := old(openTxs) + 1,
                                                          totalTxs := old(totalTxs) + 1)
      ensures err.Some? ==> Snapshot() == old(Snapshot()).(txOpenErrs := old(txOpenErrs) + 1)
    {
      ReplayStep(history, Event.TxBegan(err));
      if err.None? {
        openTxs := openTxs + 1;
        totalTxs := totalTxs + 1;
      } else {
        txOpenErrs := txOpenErrs + 1;
      }
      history := history + [Event.TxBegan(err)];
    }

    method TxCommitted(err: Option<Error>)
      requires Valid()
      modifies this
      ensures Valid() && history == old(history) + [Event.TxCommitted(err)]
      ensures err.None? ==> Snapshot() == old(Snapshot()).(openTxs := old(openTxs) - 1,
                                                          committedTxs := old(committedTxs) + 1)
      ensures err.Some? ==> Snapshot() == old(Snapshot()).(openTxs := old(openTxs) - 1,
                                                          txCloseErrs := old(txCloseErrs) + 1)
    {
      ReplayStep(history, Event.TxCommitted(err));
      ghost var before := Snapshot();
      if err.None? {
        openTxs, committedTxs := openTxs - 1, committedTxs + 1;
      } else {
        openTxs, txCloseErrs := openTxs - 1, txCloseErrs + 1;
      }
      assert Snapshot() == Record(before, Event.TxCommitted(err));
      history := history + [Event.TxCommitted(err)];
    }

    method TxRolledback(err: Option<Error>)
      requires Valid()
      modifies this
      ensures Valid() && history == old(history) + [Event.TxRolledback(err)]
      ensures err.None? ==> Snapshot() == old(Snapshot()).(openTxs := old(openTxs) - 1,
                                                          rolledbackTxs := old(rolledbackTxs) + 1)
      ensures err.Some? ==> Snapshot() == old(Snapshot()).(openTxs := old(openTxs) - 1,
                                                          txCloseErrs := old(txCloseErrs) + 1)
    {
      ReplayStep(history, Event.TxRolledback(err));
      ghost var before := Snapshot();
      if err.None? {
        openTxs, rolledbackTxs := openTxs - 1, rolledbackTxs + 1;
      } else {
        openTxs, txCloseErrs := openTxs - 1, txCloseErrs + 1;
      }
      assert Snapshot() == Record(before, Event.TxRolledback(err));
      history := history + [Event.TxRolledback(err)];
    }

    /** The duration and the query text are not looked at. */
    method Queried(d: Duration, query: string, err: Option<Error>)
      requires Valid()
      modifies this
      ensures Valid() && history == old(history) + [Event.Queried(d, query, err)]
      ensures err.None? ==> Snapshot() == old(Snapshot()).(queries := old(queries) + 1)
      ensures err.Some? ==> Snapshot() == old(Snapshot()).(queryErrs := old(queryErrs) + 1)
    {
      ReplayStep(history, Event.Queried(d, query, err));
      if err.None? {
        queries := queries + 1;
      } else {
        queryErrs := queryErrs + 1;
      }
      history := history + [Event.Queried(d, query, err)];
    }

    /** The duration and the query text are not looked at. */
    method Execed(d: Duration, query: string, err: Option<Error>)
      requires Valid()
      modifies this
      ensures Valid() && history == old(history) + [Event.Execed(d, query, err)]
      ensures err.None? ==> Snapshot() == old(Snapshot()).(execs := old(execs) + 1)
      ensures err.Some? ==> Snapshot() == old(Snapshot()).(execErrs := old(execErrs) + 1)
    {
      ReplayStep(history, Event.Execed(d, query, err));
      if err.None? {
        execs := execs + 1;
      } else {
        execErrs := execErrs + 1;
      }
      history := history + [Event.Execed(d, query, err)];
    }

    method RowIterated(err: Option<Error>)
      requires Valid()
      modifies this
      ensures Valid() && history == old(history) + [Event.RowIterated(err)]
      ensures err.None? ==> Snapshot() == old(Snapshot()).(rowsIterated := old(rowsIterated) + 1)
      ensures err.Some? ==> Snapshot() == old(Snapshot()).(rowErrs := old(rowErrs) + 1)
    {
      ReplayStep(history, Event.RowIterated(err));
      if err.None? {
        rowsIterated := rowsIterated + 1;
      } else {
        rowErrs := rowErrs + 1;
      }
      history := history + [Event.RowIterated(err)];
    }
  }
}
