/** The request log context (log/log.go:135-153, repeated in gory.go:173-191):
    a per-request bag with two lazily created tables, "args" and "metas",
    that handler code fills through AddLogArgs and AddLogMeta while the
    logging middleware waits for it. */
module RequestLog {
  import opened Wrappers
  import opened Formatter

  /** gin's Context.MustGet panics with this text when the middleware never
      stored the context under "_logCtx". */
  const MissingCtxPanic: string := "Key \"_logCtx\" does not exist"

  /** Lookup in a table that may not have been created yet. */
  function Lookup(table: Option<map<string, Value>>, key: string): Option<Value>
  {
    if table.Some? && key in table.value then Some(table.value[key]) else None
  }

  /** The table after `table[key] = value`, creating it first if absent. */
  function Put(table: Option<map<string, Value>>, key: string, value: Value): (r: map<string, Value>)
    ensures key in r && r[key] == value
    ensures r.Keys == (if table.Some? then table.value.Keys else {}) + {key}
    ensures forall k :: k != key ==> Lookup(Some(r), k) == Lookup(table, k)
  {
    (if table.Some? then table.value else map[])[key := value]
  }

  /** The two tables of a context, as values. */
  datatype CtxState = CtxState(args: Option<map<string, Value>>, metas: Option<map<string, Value>>)

  /** One accessor call made by handler code. */
  datatype Call = LogArg(key: string, value: Value) | LogMeta(key: string, value: Value)

  /** The effect of one accessor call on an attached context. */
  function Apply(s: CtxState, c: Call): CtxState
  {
    match c
    case LogArg(k, v) => s.(args := Some(Put(s.args, k, v)))
    case LogMeta(k, v) => s.(metas := Some(Put(s.metas, k, v)))
  }

  /** The context after a sequence of accessor calls, starting from the
      empty context the middleware attaches. */
  function Replay(calls: seq<Call>): CtxState
  {
    if |calls| == 0 then CtxState(None, None)
    else Apply(Replay(calls[..|calls| - 1]), calls[|calls| - 1])
  }

  /** The value of the last AddLogArgs call for `key`, if any. */
  function LastArg(calls: seq<Call>, key: string): Option<Value>
  {
    if |calls| == 0 then None
    else
      var c := calls[|calls| - 1];
      if c.LogArg? && c.key == key then Some(c.value) else LastArg(calls[..|calls| - 1], key)
  }

  /** The value of the last AddLogMeta call for `key`, if any. */
  function LastMeta(calls: seq<Call>, key: string): Option<Value>
  {
    if |calls| == 0 then None
    else
      var c := calls[|calls| - 1];
      if c.LogMeta? && c.key == key then Some(c.value) else LastMeta(calls[..|calls| - 1], key)
  }

  predicate SomeArgCall(calls: seq<Call>)
  {
    exists i :: 0 <= i < |calls| && calls[i].LogArg?
  }

  predicate SomeMetaCall(calls: seq<Call>)
  {
    exists i :: 0 <= i < |calls| && calls[i].LogMeta?
  }

  /** Accessor calls accumulate with the last write winning: each table
      exists iff its accessor was called at least once, and maps each key to
      the value of the last call for that key. */
  lemma {:induction false} ReplayLastWriteWins(calls: seq<Call>)
    ensures Replay(calls).args.Some? <==> SomeArgCall(calls)
    ensures Replay(calls).metas.Some? <==> SomeMetaCall(calls)
    ensures forall k :: Lookup(Replay(calls).args, k) == LastArg(calls, k)
    ensures forall k :: Lookup(Replay(calls).metas, k) == LastMeta(calls, k)
  {
    if |calls| > 0 {
      var init := calls[..|calls| - 1];
      var c := calls[|calls| - 1];
      ReplayLastWriteWins(init);
      assert forall i :: 0 <= i < |init| ==> init[i] == calls[i];
      if SomeArgCall(init) {
        var i :| 0 <= i < |init| && init[i].LogArg?;
        assert calls[i].LogArg?;
      }
      if SomeMetaCall(init) {
        var i :| 0 <= i < |init| && init[i].LogMeta?;
        assert calls[i].LogMeta?;
      }
      if SomeArgCall(calls) && !c.LogArg? {
        var i :| 0 <= i < |calls| && calls[i].LogArg?;
        assert init[i].LogArg?;
      }
      if SomeMetaCall(calls) && !c.LogMeta? {
        var i :| 0 <= i < |calls| && calls[i].LogMeta?;
        assert init[i].LogMeta?;
      }
    }
  }

  /** Writing the same key twice keeps only the second value: AddLogArgs(c,
      "x", 1) then AddLogArgs(c, "x", 2) leaves {"x": 2}. */
  lemma OverwriteExample()
    ensures Replay([LogArg("x", VInt(1)), LogArg("x", VInt(2))]).args == Some(map["x" := VInt(2)])
  {
    var calls := [LogArg("x", VInt(1)), LogArg("x", VInt(2))];
    assert calls[..1] == [LogArg("x", VInt(1))];
    assert calls[..1][..0] == [];
    assert Replay(calls[..1]).args == Some(map["x" := VInt(1)]);
    assert map["x" := VInt(1)]["x" := VInt(2)] == map["x" := VInt(2)];
  }

  /** The request-scoped context: `attached` records whether the middleware
      stored it under "_logCtx"; the tables are absent until first written. */
  class LogCtx {
    const attached: bool
    var args: Option<map<string, Value>>
    var metas: Option<map<string, Value>>

    constructor (attached: bool)
      ensures this.attached == attached
      ensures args == None && metas == None
    {
      this.attached := attached;
      args := None;
      metas := None;
    }

    function State(): CtxState
      reads this
    {
      CtxState(args, metas)
    }

    /** AddLogArgs(c, key, value): panics without an attached context;
        otherwise creates "args" if needed and sets args[key] = value. */
    method AddLogArgs(key: string, value: Value) returns (r: Outcome<string>)
      modifies this
      ensures r == (if attached then Pass else Fail(MissingCtxPanic))
      ensures args == (if attached then Some(Put(old(args), key, value)) else old(args))
      ensures metas == old(metas)
      ensures attached ==> State() == Apply(old(State()), LogArg(key, value))
    {
      if !attached {
        return Fail(MissingCtxPanic);
      }
      var table := if args.Some? then args.value else map[];
      if args.None? {
        args := Some(table);
      }
      args := Some(table[key := value]);
      r := Pass;
    }

    /** AddLogMeta(c, key, value): the same on "metas"; "args" is untouched. */
    method AddLogMeta(key: string, value: Value) returns (r: Outcome<string>)
      modifies this
      ensures r == (if attached then Pass else Fail(MissingCtxPanic))
      ensures metas == (if attached then Some(Put(old(metas), key, value)) else old(metas))
      ensures args == old(args)
      ensures attached ==> State() == Apply(old(State()), LogMeta(key, value))
    {
      if !attached {
        return Fail(MissingCtxPanic);
      }
      var table := if metas.Some? then metas.value else map[];
      if metas.None? {
        metas := Some(table);
      }
      metas := Some(table[key := value]);
      r := Pass;
    }
  }
}
