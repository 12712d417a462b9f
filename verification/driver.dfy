/** The instrumenting driver: a dispatch root that opens backend connections
    and fans every event out to the registered hooks, and the proxies that
    wrap the backend's connections, statements, cursors and transactions.

    A proxy calls the wrapped backend object, emits exactly one event carrying
    the backend's error unchanged, wraps the returned child object when the
    call succeeded, and returns the backend's error unchanged. The wrapped
    objects are code this model cannot see: each proxy method receives the
    wrapped call's answer as its `reply` parameter. */
module Driver {
  import opened Events

  // ---------------------------------------------------------------------
  // The backend, known only by identity and by the optional interfaces each
  // object implements.

  datatype BackendConn = BackendConn(handle: nat, isQueryer: bool, isExecer: bool)
  datatype BackendStmt = BackendStmt(handle: nat, isColumnConverter: bool)
  datatype BackendRows = BackendRows(handle: nat)
  datatype BackendTx = BackendTx(handle: nat)
  datatype BackendResult = BackendResult(handle: nat)
  datatype ValueConverter = ValueConverter(handle: nat)

  /** What a backend call returns: a value and an error, as Go's pairs do. */
  datatype Reply<T> = Reply(value: T, err: Option<Error>)

  /** The backend's open function. */
  type OpenFunc = string -> Reply<BackendConn>

  // ---------------------------------------------------------------------
  // Fan-out.

  /** A registered hook, by identity; the same hook may be added twice. */
  type HookId = nat

  /** One callback made to one hook. */
  datatype Delivery = Delivery(hook: HookId, event: Event)

  /** The callbacks that delivering `e` to `hooks` makes, in registration order. */
  function Fanout(hooks: seq<HookId>, e: Event): (ds: seq<Delivery>)
    ensures |ds| == |hooks|
    ensures forall i :: 0 <= i < |hooks| ==> ds[i] == Delivery(hooks[i], e)
  {
    if hooks == [] then []
    else Fanout(hooks[..|hooks| - 1], e) + [Delivery(hooks[|hooks| - 1], e)]
  }

  /** The events hook `h` received, in order, among the callbacks `ds`. */
  function Received(ds: seq<Delivery>, h: HookId): (es: seq<Event>)
    ensures |es| <= |ds|
  {
    if ds == [] then []
    else Received(ds[..|ds| - 1], h)
         + (if ds[|ds| - 1].hook == h then [ds[|ds| - 1].event] else [])
  }

  /** How many times `h` is registered. */
  function Occurrences(hooks: seq<HookId>, h: HookId): (n: nat)
    ensures n <= |hooks|
  {
    if hooks == [] then 0
    else Occurrences(hooks[..|hooks| - 1], h) + (if hooks[|hooks| - 1] == h then 1 else 0)
  }

  lemma {:induction false} ReceivedAppend(a: seq<Delivery>, b: seq<Delivery>, h: HookId)
    ensures Received(a + b, h) == Received(a, h) + Received(b, h)
  {
    if b == [] {
      assert a + b == a;
    } else {
      assert (a + b)[..|a + b| - 1] == a + b[..|b| - 1];
      ReceivedAppend(a, b[..|b| - 1], h);
    }
  }

  /** Every hook receives an emitted event once per registration. */
  lemma {:induction false} ReceivedFanout(hooks: seq<HookId>, e: Event, h: HookId)
    ensures Received(Fanout(hooks, e), h) == Repeat(e, Occurrences(hooks, h))
  {
    if hooks != [] {
      var init := hooks[..|hooks| - 1];
      ReceivedFanout(init, e, h);
      ReceivedAppend(Fanout(init, e), [Delivery(hooks[|hooks| - 1], e)], h);
      assert [Delivery(hooks[|hooks| - 1], e)][..0] == [];
    }
  }

  // ---------------------------------------------------------------------
  // The dispatch root.

  class StatsDriver {
    const open: OpenFunc
    /** The hooks, in the order they were added. */
    var hooks: seq<HookId>
    /** Every callback made to a hook so far, in order. */
    var delivered: seq<Delivery>
    /** Every event emitted so far, in order. */
    ghost var emitted: seq<Event>

    /** `New(open)`: a driver with no hooks. */
    constructor (open: OpenFunc)
      ensures this.open == open && hooks == [] && delivered == [] && emitted == []
    {
      this.open := open;
      hooks := [];
      delivered := [];
      emitted := [];
    }

    /** Between the two states, exactly `e` was emitted, and it was delivered
        once to each registered hook, in registration order. */
    twostate predicate Emitted(e: Event)
      reads this
    {
      && hooks == old(hooks)
      && emitted == old(emitted) + [e]
      && delivered == old(delivered) + Fanout(hooks, e)
    }

    method AddHook(h: HookId)
      modifies this`hooks
      ensures hooks == old(hooks) + [h]
    {
      hooks := hooks + [h];
    }

    /** The loop every fan-out method runs: call each hook in turn. */
    method Broadcast(e: Event)
      modifies this`delivered, this`emitted
      ensures Emitted(e)
    {
      var i := 0;
      while i < |hooks|
        invariant 0 <= i <= |hooks|
        invariant delivered == old(delivered) + Fanout(hooks[..i], e)
        invariant emitted == old(emitted)
      {
        assert hooks[..i + 1][..i] == hooks[..i];
        delivered := delivered + [Delivery(hooks[i], e)];
        i := i + 1;
      }
      assert hooks[..i] == hooks;
      emitted := emitted + [e];
    }

    method ConnOpened(err: Option<Error>)
      modifies this`delivered, this`emitted
      ensures Emitted(Event.ConnOpened(err))
    {
      Broadcast(Event.ConnOpened(err));
    }

    method ConnClosed(err: Option<Error>)
      modifies this`delivered, this`emitted
      ensures Emitted(Event.ConnClosed(err))
    {
      Broadcast(Event.ConnClosed(err));
    }

    method StmtPrepared(query: string, err: Option<Error>)
      modifies this`delivered, this`emitted
      ensures Emitted(Event.StmtPrepared(query, err))
    {
      Broadcast(Event.StmtPrepared(query, err));
    }

    method StmtClosed(err: Option<Error>)
      modifies this`delivered, this`emitted
      ensures Emitted(Event.StmtClosed(err))
    {
      Broadcast(Event.StmtClosed(err));
    }

    method TxBegan(err: Option<Error>)
      modifies this`delivered, this`emitted
      ensures Emitted(Event.TxBegan(err))
    {
      Broadcast(Event.TxBegan(err));
    }

    method TxCommitted(err: Option<Error>)
      modifies this`delivered, this`emitted
      ensures Emitted(Event.TxCommitted(err))
    {
      Broadcast(Event.TxCommitted(err));
    }

    method TxRolledback(err: Option<Error>)
      modifies this`delivered, this`emitted
      ensures Emitted(Event.TxRolledback(err))
    {
      Broadcast(Event.TxRolledback(err));
    }

    method Queried(d: Duration, query: string, err: Option<Error>)
      modifies this`delivered, this`emitted
      ensures Emitted(Event.Queried(d, query, err))
    {
      Broadcast(Event.Queried(d, query, err));
    }

    method Execed(d: Duration, query: string, err: Option<Error>)
      modifies this`delivered, this`emitted
      ensures Emitted(Event.Execed(d, query, err))
    {
      Broadcast(Event.Execed(d, query, err));
    }

    method RowIterated(err: Option<Error>)
      modifies this`delivered, this`emitted
      ensures Emitted(Event.RowIterated(err))
    {
      Broadcast(Event.RowIterated(err));
    }

    /** Opens a backend connection through `open`, passing `name` unchanged,
        and emits ConnOpened with the backend's error. A failed open returns
        the backend's pair as it is; a successful one returns a proxy that
        implements Queryer and Execer exactly when the backend connection does. */
    method Open(name: string) returns (conn: DriverConn, err: Option<Error>)
      modifies this`delivered, this`emitted
      ensures Emitted(Event.ConnOpened(open(name).err))
      ensures err == open(name).err
      ensures err.Some? ==> conn == RawConn(open(name).value)
      ensures err.None? ==> conn == ProxyConn(StatsConn(this, open(name).value,
                                                        ShapeOf(open(name).value)))
      ensures err.None? ==> conn.proxy.Valid()
      ensures err.None? ==> conn.IsQueryer() == open(name).value.isQueryer
                            && conn.IsExecer() == open(name).value.isExecer
    {
      var reply := open(name);
      ConnOpened(reply.err);
      if reply.err.Some? {
        return RawConn(reply.value), reply.err;
      }
      var c := reply.value;
      conn := ProxyConn(StatsConn(this, c, SelectShape(c.isQueryer, c.isExecer)));
      err := None;
    }
  }

  // ---------------------------------------------------------------------
  // Capability selection.

  /** The four connection proxies: statsConn, statsQueryer, statsExecer and
      statsExecerQueryer. */
  datatype ConnShape = ConnOnly | QueryerConn | ExecerConn | ExecerQueryerConn
  {
    predicate HasQuery() { this == QueryerConn || this == ExecerQueryerConn }
    predicate HasExec() { this == ExecerConn || this == ExecerQueryerConn }
  }

  /** The proxy that implements Queryer exactly when `isQueryer` and Execer
      exactly when `isExecer`; it is the only one that does. */
  function SelectShape(isQueryer: bool, isExecer: bool): (s: ConnShape)
    ensures s.HasQuery() == isQueryer && s.HasExec() == isExecer
    ensures forall t: ConnShape :: t.HasQuery() == isQueryer && t.HasExec() == isExecer ==> t == s
  {
    if isExecer && isQueryer then ExecerQueryerConn
    else if isQueryer then QueryerConn
    else if isExecer then ExecerConn
    else ConnOnly
  }

  function ShapeOf(c: BackendConn): (shape: ConnShape)
  {
    SelectShape(c.isQueryer, c.isExecer)
  }

  /** What Open hands back: the backend's connection as it is, or a proxy. */
  datatype DriverConn = RawConn(raw: BackendConn) | ProxyConn(proxy: StatsConn)
  {
    /** Whether a caller probing for Queryer finds it. */
    predicate IsQueryer()
    {
      match this
      case RawConn(c) => c.isQueryer
      case ProxyConn(p) => p.shape.HasQuery()
    }

    /** Whether a caller probing for Execer finds it. */
    predicate IsExecer()
    {
      match this
      case RawConn(c) => c.isExecer
      case ProxyConn(p) => p.shape.HasExec()
    }
  }

  /** What Prepare hands back: the backend's statement as it is, or a proxy. */
  datatype DriverStmt = RawStmt(raw: BackendStmt) | ProxyStmt(proxy: StatsStmt)
  {
    /** Whether a caller probing for ColumnConverter finds it. */
    predicate IsColumnConverter()
    {
      match this
      case RawStmt(s) => s.isColumnConverter
      case ProxyStmt(p) => p.converter
    }
  }

  /** What a query hands back: the backend's cursor as it is, or a proxy. */
  datatype DriverRows = RawRows(raw: BackendRows) | ProxyRows(proxy: StatsRows)

  /** What Begin hands back: the backend's transaction as it is, or a proxy. */
  datatype DriverTx = RawTx(raw: BackendTx) | ProxyTx(proxy: StatsTx)

  // ---------------------------------------------------------------------
  // The proxies.

  /** A connection proxy; `shape` says which optional interfaces it has. */
  datatype StatsConn = StatsConn(d: StatsDriver, wrapped: BackendConn, shape: ConnShape)
  {
    /** The proxy offers exactly the optional interfaces of the connection it
        wraps, as Open selects them. */
    predicate Valid()
    {
      shape == ShapeOf(wrapped)
    }

    /** `reply` is what the backend's Prepare(query) returned. */
    method Prepare(query: string, reply: Reply<BackendStmt>) returns (stmt: DriverStmt, err: Option<Error>)
      modifies d`delivered, d`emitted
      ensures d.Emitted(Event.StmtPrepared(query, reply.err))
      ensures err == reply.err
      ensures err.Some? ==> stmt == RawStmt(reply.value)
      ensures err.None? ==> stmt == ProxyStmt(StatsStmt(d, reply.value, query, reply.value.isColumnConverter))
      ensures err.None? ==> stmt.IsColumnConverter() == reply.value.isColumnConverter
    {
      d.StmtPrepared(query, reply.err);
      stmt, err := RawStmt(reply.value), reply.err;
      if err.None? {
        if reply.value.isColumnConverter {
          stmt := ProxyStmt(StatsStmt(d, reply.value, query, true));
        } else {
          stmt := ProxyStmt(StatsStmt(d, reply.value, query, false));
        }
      }
    }

    /** `reply` is what the backend's Close() returned. */
    method Close(reply: Option<Error>) returns (err: Option<Error>)
      modifies d`delivered, d`emitted
      ensures d.Emitted(Event.ConnClosed(reply))
      ensures err == reply
    {
      err := reply;
      d.ConnClosed(err);
    }

    /** `reply` is what the backend's Begin() returned. */
    method Begin(reply: Reply<BackendTx>) returns (tx: DriverTx, err: Option<Error>)
      modifies d`delivered, d`emitted
      ensures d.Emitted(Event.TxBegan(reply.err))
      ensures err == reply.err
      ensures err.Some? ==> tx == RawTx(reply.value)
      ensures err.None? ==> tx == ProxyTx(StatsTx(d, reply.value))
    {
      d.TxBegan(reply.err);
      tx, err := RawTx(reply.value), reply.err;
      if err.None? {
        tx := ProxyTx(StatsTx(d, reply.value));
      }
    }

    /** Exists on statsQueryer and statsExecerQueryer only. `dur` is the time
        the backend call took; `reply` is what the backend's Query returned. */
    method Query(query: string, dur: Duration, reply: Reply<BackendRows>) returns (rows: DriverRows, err: Option<Error>)
      requires Valid() && shape.HasQuery()
      modifies d`delivered, d`emitted
      ensures d.Emitted(Event.Queried(dur, query, reply.err))
      ensures err == reply.err
      ensures err.Some? ==> rows == RawRows(reply.value)
      ensures err.None? ==> rows == ProxyRows(StatsRows(d, reply.value))
    {
      d.Queried(dur, query, reply.err);
      rows, err := RawRows(reply.value), reply.err;
      if err.None? {
        rows := ProxyRows(StatsRows(d, reply.value));
      }
    }

    /** Exists on statsExecer and statsExecerQueryer only. The result is
        never wrapped. */
    method Exec(query: string, dur: Duration, reply: Reply<BackendResult>) returns (result: BackendResult, err: Option<Error>)
      requires Valid() && shape.HasExec()
      modifies d`delivered, d`emitted
      ensures d.Emitted(Event.Execed(dur, query, reply.err))
      ensures result == reply.value && err == reply.err
    {
      d.Execed(dur, query, reply.err);
      result, err := reply.value, reply.err;
    }
  }

  /** A statement proxy, holding the query text given to Prepare; `converter`
      tells statsColumnConverter from plain statsStmt. */
  datatype StatsStmt = StatsStmt(d: StatsDriver, wrapped: BackendStmt, query: string, converter: bool)
  {
    method Close(reply: Option<Error>) returns (err: Option<Error>)
      modifies d`delivered, d`emitted
      ensures d.Emitted(Event.StmtClosed(reply))
      ensures err == reply
    {
      err := reply;
      d.StmtClosed(err);
    }

    /** A pure forward: no event, nothing modified. */
    method NumInput(reply: int) returns (n: int)
      ensures n == reply
    {
      n := reply;
    }

    /** Reports the query text captured at prepare time. */
    method Exec(dur: Duration, reply: Reply<BackendResult>) returns (result: BackendResult, err: Option<Error>)
      modifies d`delivered, d`emitted
      ensures d.Emitted(Event.Execed(dur, query, reply.err))
      ensures result == reply.value && err == reply.err
    {
      d.Execed(dur, query, reply.err);
      result, err := reply.value, reply.err;
    }

    /** Reports the query text captured at prepare time; wraps the cursor
        only when the backend succeeded. */
    method Query(dur: Duration, reply: Reply<BackendRows>) returns (rows: DriverRows, err: Option<Error>)
      modifies d`delivered, d`emitted
      ensures d.Emitted(Event.Queried(dur, query, reply.err))
      ensures err == reply.err
      ensures err.Some? ==> rows == RawRows(reply.value)
      ensures err.None? ==> rows == ProxyRows(StatsRows(d, reply.value))
    {
      d.Queried(dur, query, reply.err);
      rows, err := RawRows(reply.value), reply.err;
      if err.None? {
        rows := ProxyRows(StatsRows(d, reply.value));
      }
    }

    /** Exists on statsColumnConverter only. A pure forward: no event. */
    method ColumnConverter(idx: int, reply: ValueConverter) returns (vc: ValueConverter)
      requires converter
      ensures vc == reply
    {
      vc := reply;
    }
  }

  /** The events one call of Next emits, given what the backend's Next
      returned: RowIterated with that result, unless it is end-of-data. */
  function RowEvents(reply: Option<Error>): (es: seq<Event>)
  {
    if reply == Some(EOF) then [] else [RowIterated(reply)]
  }

  /** The events a sequence of Next calls emits, given the backend's answers. */
  function CursorEvents(replies: seq<Option<Error>>): (es: seq<Event>)
    ensures |es| <= |replies|
  {
    if replies == [] then []
    else CursorEvents(replies[..|replies| - 1]) + RowEvents(replies[|replies| - 1])
  }

  lemma CursorEventsStep(replies: seq<Option<Error>>, reply: Option<Error>)
    ensures CursorEvents(replies + [reply]) == CursorEvents(replies) + RowEvents(reply)
  {
    assert (replies + [reply])[..|replies|] == replies;
  }

  /** How many of the backend's answers are not end-of-data. */
  function NonEof(replies: seq<Option<Error>>): (n: nat)
    ensures n <= |replies|
  {
    if replies == [] then 0
    else NonEof(replies[..|replies| - 1]) + (if replies[|replies| - 1] == Some(EOF) then 0 else 1)
  }

  /** Whatever the backend answers, a cursor reports one RowIterated per
      answer that is not end-of-data, in order, and never reports end-of-data
      itself to a hook. */
  lemma {:induction false} CursorEventsAreRows(replies: seq<Option<Error>>)
    ensures |CursorEvents(replies)| == NonEof(replies)
    ensures forall i :: 0 <= i < |CursorEvents(replies)| ==>
              CursorEvents(replies)[i].RowIterated? && CursorEvents(replies)[i].err != Some(EOF)
  {
    if replies != [] {
      CursorEventsAreRows(replies[..|replies| - 1]);
    }
  }

  /** Reading a cursor of `n` good rows to its end emits one successful
      RowIterated per row and nothing for the end. */
  lemma {:induction false} ExhaustedCursor(n: nat)
    ensures CursorEvents(Repeat(None, n) + [Some(EOF)]) == Repeat(RowIterated(None), n)
  {
    var rs := Repeat(None, n) + [Some(EOF)];
    assert rs[..|rs| - 1] == Repeat(None, n);
    GoodRows(n);
  }

  lemma {:induction false} GoodRows(n: nat)
    ensures CursorEvents(Repeat(None, n)) == Repeat(RowIterated(None), n)
  {
    if n > 0 {
      GoodRows(n - 1);
      assert Repeat<Option<Error>>(None, n)[..n - 1] == Repeat(None, n - 1);
    }
  }

  /** A cursor proxy. */
  datatype StatsRows = StatsRows(d: StatsDriver, wrapped: BackendRows)
  {
    /** A pure forward: no event, nothing modified. */
    method Columns(reply: seq<string>) returns (cols: seq<string>)
      ensures cols == reply
    {
      cols := reply;
    }

    /** A pure forward: closing a cursor emits no event. */
    method Close(reply: Option<Error>) returns (err: Option<Error>)
      ensures err == reply
    {
      err := reply;
    }

    /** `reply` is what the backend's Next returned; end-of-data is not reported. */
    method Next(reply: Option<Error>) returns (err: Option<Error>)
      modifies d`delivered, d`emitted
      ensures err == reply
      ensures d.emitted == old(d.emitted) + RowEvents(reply)
      ensures reply != Some(EOF) ==> d.Emitted(Event.RowIterated(reply))
      ensures reply == Some(EOF) ==> d.delivered == old(d.delivered)
    {
      err := reply;
      if err != Some(EOF) {
        d.RowIterated(err);
      }
    }

    /** Calls Next once per answer in `replies`, in order, as a caller reading
        the cursor does; the events emitted are those of `CursorEvents`. */
    method Read(replies: seq<Option<Error>>) returns (errs: seq<Option<Error>>)
      modifies d`delivered, d`emitted
      ensures errs == replies
      ensures d.emitted == old(d.emitted) + CursorEvents(replies)
    {
      errs := [];
      var i := 0;
      while i < |replies|
        invariant 0 <= i <= |replies|
        invariant errs == replies[..i]
        invariant d.emitted == old(d.emitted) + CursorEvents(replies[..i])
      {
        ghost var before := d.emitted;
        var err := Next(replies[i]);
        assert replies[..i + 1] == replies[..i] + [replies[i]];
        CursorEventsStep(replies[..i], replies[i]);
        assert d.emitted == before + RowEvents(replies[i]);
        errs := errs + [err];
        i := i + 1;
      }
      assert replies[..i] == replies;
    }
  }

  /** A transaction proxy. */
  datatype StatsTx = StatsTx(d: StatsDriver, wrapped: BackendTx)
  {
    method Commit(reply: Option<Error>) returns (err: Option<Error>)
      modifies d`delivered, d`emitted
      ensures d.Emitted(Event.TxCommitted(reply))
      ensures err == reply
    {
      err := reply;
      d.TxCommitted(err);
    }

    method Rollback(reply: Option<Error>) returns (err: Option<Error>)
      modifies d`delivered, d`emitted
      ensures d.Emitted(Event.TxRolledback(reply))
      ensures err == reply
    {
      err := reply;
      d.TxRolledback(err);
    }
  }
}
