/** The logging middleware of log/log.go:92-133: before the handler chain
    runs it binds the request fields to a logger view and attaches an empty
    request log context; after the chain returns it adds the status, the
    metas table (if any) and the cost, renders the args table into the
    message "<handler>(k=v,...)" and emits exactly one Info record.

    The handler chain (c.Next()) is modelled as the sequence of accessor
    calls it makes; the status, the elapsed-time text, the handler name and
    the outcome of request-id generation are inputs. */
module Middleware {
  import opened Wrappers
  import opened GoText
  import opened Formatter
  import opened RequestLog

  /** What gin's context says about the request: c.ClientIP(),
      c.Request.Method and c.Request.RequestURI. */
  datatype Request = Request(clientIp: string, verb: string, uri: string)

  /** The text of uuid.Nil, which uuid.NewV4 returns with its error. */
  const NilUuid: string := "00000000-0000-0000-0000-000000000000"

  /** The request id the middleware binds: the fresh uuid, or uuid.Nil when
      generation failed. */
  function RequestIdText(gen: Result<string, string>): string
  {
    if gen.Success? then gen.value else NilUuid
  }

  /** The Error record l.Errorf writes when uuid generation fails: no data
      fields, the current time. */
  function IdErrorEntry(now: string, err: string): Entry
  {
    Entry(now, ErrorLevel, "Generate request id got error => " + err, None, None, None, None, None, None, None)
  }

  /** fmt.Sprintf("%v=%#v", k, v). */
  function ArgToken(k: string, v: Value): string
  {
    k + "=" + GoSyntax(v)
  }

  /** The args order fits the table: a range order of it, if it exists. */
  predicate ArgsOrderFits(args: Option<map<string, Value>>, order: seq<string>)
  {
    args.Some? ==> Enumerates(order, args.value)
  }

  /** argInfo after the range loop over the args table. */
  function ArgTokens(args: Option<map<string, Value>>, order: seq<string>): seq<string>
    requires ArgsOrderFits(args, order)
  {
    if args.Some? then MapTokens(order, args.value, ArgToken) else []
  }

  /** fmt.Sprintf("%v(%v)", handler, strings.Join(argInfo, ",")). */
  function Message(handler: string, args: Option<map<string, Value>>, order: seq<string>): string
    requires ArgsOrderFits(args, order)
  {
    handler + "(" + Join(ArgTokens(args, order), ",") + ")"
  }

  /** The message is the handler name followed by the args in parentheses:
      one "k=%#v" token per args entry whatever the iteration order, and
      "()" when AddLogArgs was never called. */
  lemma MessageShape(handler: string, args: Option<map<string, Value>>, order: seq<string>)
    requires ArgsOrderFits(args, order)
    ensures var msg := Message(handler, args, order);
      && |msg| >= |handler| + 2
      && msg[..|handler| + 1] == handler + "("
      && msg[|msg| - 1] == ')'
    ensures args.None? ==> Message(handler, args, order) == handler + "()"
    ensures args.Some? ==> |ArgTokens(args, order)| == |args.value|
    ensures args.Some? ==> multiset(ArgTokens(args, order)) == EntryTokens(args.value, ArgToken)
  {
    var msg := Message(handler, args, order);
    assert msg == (handler + "(") + Join(ArgTokens(args, order), ",") + ")";
    if args.Some? {
      MapTokensAreEntries(order, args.value, ArgToken);
    }
  }

  /** The logger view bound before the handler chain runs:
      l.WithTime(t).WithFields({RequestId, RequestIp, RequestMethod,
      RequestURI}). Its level and message are set when it logs. */
  function PreEntry(start: string, req: Request, reqId: string): Entry
  {
    Entry(start, InfoLevel, "", Some(VStr(req.clientIp)), None, Some(VStr(req.verb)), Some(VStr(req.uri)),
          Some(VStr(reqId)), None, None)
  }

  /** The Info record the post phase emits for a context in state `st`. */
  function PostEntry(start: string, req: Request, reqId: string, st: CtxState, status: int,
                     handler: string, cost: string, argOrder: seq<string>): Entry
    requires ArgsOrderFits(st.args, argOrder)
  {
    PreEntry(start, req, reqId).(
      statusCode := Some(VInt(status)),
      metas := st.metas,
      cost := Some(cost),
      level := InfoLevel,
      message := Message(handler, st.args, argOrder))
  }

  /** What an emitted Info record always carries: all five request fields
      (so its line always has the full "[ip - status method uri id]"
      group), the cost, and the metas table exactly when AddLogMeta created
      it. */
  lemma PostEntryFields(start: string, req: Request, reqId: string, st: CtxState, status: int,
                        handler: string, cost: string, argOrder: seq<string>)
    requires ArgsOrderFits(st.args, argOrder)
    ensures var e := PostEntry(start, req, reqId, st, status, handler, cost, argOrder);
      && e.level == InfoLevel
      && e.time == start
      && GroupParts(e) == [req.clientIp, "-", IntToDecimal(status), req.verb, req.uri, reqId]
      && (e.metas.Some? <==> st.metas.Some?)
      && e.cost.Some?
  {
    GroupLayout(PostEntry(start, req, reqId, st, status, handler, cost, argOrder));
  }

  /** The six parts of a full request group joined by spaces. */
  lemma JoinRequestGroup(ip: string, status: string, verb: string, uri: string, id: string)
    ensures Join([ip, "-", status, verb, uri, id], " ") == ip + " - " + status + " " + verb + " " + uri + " " + id
  {
    JoinTwo(uri, id, " ");
    JoinCons(verb, [uri, id], " ");
    assert [verb] + [uri, id] == [verb, uri, id];
    JoinCons(status, [verb, uri, id], " ");
    assert [status] + [verb, uri, id] == [status, verb, uri, id];
    JoinCons("-", [status, verb, uri, id], " ");
    assert ["-"] + [status, verb, uri, id] == ["-", status, verb, uri, id];
    JoinCons(ip, ["-", status, verb, uri, id], " ");
    assert [ip] + ["-", status, verb, uri, id] == [ip, "-", status, verb, uri, id];
  }

  /** The line of an emitted Info record: header, the full request group,
      the meta tokens, the message, the cost and the newline. */
  lemma RequestLine(f: GoryFormatter, start: string, req: Request, reqId: string, st: CtxState, status: int,
                    handler: string, cost: string, argOrder: seq<string>, metaOrder: seq<string>)
    requires ArgsOrderFits(st.args, argOrder)
    requires st.metas.Some? ==> Enumerates(metaOrder, st.metas.value)
    ensures var e := PostEntry(start, req, reqId, st, status, handler, cost, argOrder);
      var t := Tokens(f, e, metaOrder);
      var n := if st.metas.Some? then |st.metas.value| else 0;
      && |t| == 5 + n
      && t[0] == e.time + " info " + f.pn + "[" + IntToDecimal(f.pid) + "]:"
      && t[1] == "[" + req.clientIp + " - " + IntToDecimal(status) + " " + req.verb + " " + req.uri + " " + reqId + "]"
      && t[2 + n] == Message(handler, st.args, argOrder)
      && t[3 + n] == cost + "ms"
      && t[4 + n] == "\n"
  {
    var e := PostEntry(start, req, reqId, st, status, handler, cost, argOrder);
    PostEntryFields(start, req, reqId, st, status, handler, cost, argOrder);
    assert HasRequestField(e);
    var parts := [req.clientIp, "-", IntToDecimal(status), req.verb, req.uri, reqId];
    assert GroupParts(e) == parts;
    JoinRequestGroup(req.clientIp, IntToDecimal(status), req.verb, req.uri, reqId);
    assert Header(f, e) == e.time + " info " + f.pn + "[" + IntToDecimal(f.pid) + "]:";
    TokenLayout(f, e, metaOrder);
  }

  /** Writing "x" twice with AddLogArgs and then logging renders only the
      second value: the message is handler(x=2). */
  lemma OverwriteMessage(handler: string)
    ensures var args := Replay([LogArg("x", VInt(1)), LogArg("x", VInt(2))]).args;
      && ArgsOrderFits(args, ["x"])
      && Message(handler, args, ["x"]) == handler + "(x=2)"
  {
    OverwriteExample();
    var m := map["x" := VInt(2)];
    assert Enumerates(["x"], m);
    assert ["x"][..0] == [];
    assert MapTokens(["x"], m, ArgToken) == [ArgToken("x", VInt(2))];
    assert IntToDecimal(2) == "2";
  }

  /** The accessor calls of the example ping handler: one meta, then two
      args, a string and an int. */
  const PingCalls: seq<Call> :=
    [LogMeta("meta", VStr("this_is_meta_data")), LogArg("args1", VStr("this_is_args1")), LogArg("args2", VInt(2))]

  /** The context the ping handler leaves: metas {"meta":
      "this_is_meta_data"} and args {"args1": "this_is_args1", "args2": 2}. */
  lemma PingState()
    ensures Replay(PingCalls) == CtxState(Some(map["args1" := VStr("this_is_args1"), "args2" := VInt(2)]),
                                          Some(map["meta" := VStr("this_is_meta_data")]))
  {
    var c := PingCalls;
    assert c[..1] == [c[0]] && c[..1][..0] == [];
    assert c[..2][..1] == c[..1];
    assert c[..3] == c;
    assert Replay(c[..1][..0]) == CtxState(None, None);
    var s1 := Replay(c[..1]);
    assert s1 == CtxState(None, Some(map["meta" := VStr("this_is_meta_data")]));
    assert Replay(c[..2]) == CtxState(Some(map["args1" := VStr("this_is_args1")]), s1.metas);
  }

  /** %#v of a string of word characters is the string in double quotes. */
  lemma WordArgToken(k: string, text: string)
    requires Plain(text)
    ensures ArgToken(k, VStr(text)) == k + "=\"" + text + "\""
  {
    QuotePlain(text);
  }

  /** A range order of a two-key table visits the keys in one order or the
      other. */
  lemma TwoKeyOrders(order: seq<string>, m: map<string, Value>, k1: string, k2: string)
    requires k1 != k2 && m.Keys == {k1, k2}
    requires Enumerates(order, m)
    ensures order == [k1, k2] || order == [k2, k1]
  {
    assert |order| == 2 && order[0] in m && order[1] in m && order[0] != order[1];
  }

  /** The message for a two-entry args table: both tokens, in the order
      the range loop visits them. */
  lemma TwoArgMessage(handler: string, m: map<string, Value>, argOrder: seq<string>, k1: string, k2: string)
    requires k1 in m && k2 in m
    requires Enumerates(argOrder, m)
    requires argOrder == [k1, k2]
    ensures Message(handler, Some(m), argOrder) == handler + "(" + ArgToken(k1, m[k1]) + "," + ArgToken(k2, m[k2]) + ")"
  {
    MapTokensAt(argOrder, m, ArgToken, 0);
    MapTokensAt(argOrder, m, ArgToken, 1);
    assert MapTokens(argOrder, m, ArgToken) == [ArgToken(k1, m[k1]), ArgToken(k2, m[k2])];
    JoinTwo(ArgToken(k1, m[k1]), ArgToken(k2, m[k2]), ",");
  }

  // The ping lemmas below take their string literals as parameters
  // (`requires text == "..."`) rather than writing them inline: with a
  // literal in scope the verifier unfolds Quote, Escape and Join on it
  // character by character, which makes the proofs that combine these
  // facts too costly.

  /** Regrouping the ping message text around its two tokens. */
  lemma PingConcat(handler: string, a1: string, a2: string, text: string)
    requires a1 == "args1=\"" + text + "\"" && a2 == "args2=2"
    ensures handler + "(" + a1 + "," + a2 + ")" == handler + "(args1=\"" + text + "\",args2=2)"
    ensures handler + "(" + a2 + "," + a1 + ")" == handler + "(args2=2,args1=\"" + text + "\")"
  {
  }

  /** The message for the ping handler's args table, for any word-character
      text in place of "this_is_args1". */
  lemma PingShapedMessage(handler: string, m: map<string, Value>, argOrder: seq<string>, text: string)
    requires Plain(text)
    requires m == map["args1" := VStr(text), "args2" := VInt(2)]
    requires Enumerates(argOrder, m)
    ensures var msg := Message(handler, Some(m), argOrder);
      msg == handler + "(args1=\"" + text + "\",args2=2)" || msg == handler + "(args2=2,args1=\"" + text + "\")"
  {
    var a1, a2 := ArgToken("args1", m["args1"]), ArgToken("args2", m["args2"]);
    WordArgToken("args1", text);
    assert a2 == "args2=2";
    PingConcat(handler, a1, a2, text);
    TwoKeyOrders(argOrder, m, "args1", "args2");
    if argOrder == ["args1", "args2"] {
      TwoArgMessage(handler, m, argOrder, "args1", "args2");
    } else {
      TwoArgMessage(handler, m, argOrder, "args2", "args1");
    }
  }

  /** "this_is_args1" is made of word characters, so %#v only wraps it in
      quotes. */
  lemma PingText(text: string)
    requires text == "this_is_args1"
    ensures Plain(text)
  {
  }

  /** The two ping message texts with the literal substituted. */
  lemma PingConcatText(handler: string, text: string)
    requires text == "this_is_args1"
    ensures handler + "(args1=\"" + text + "\",args2=2)" == handler + "(args1=\"this_is_args1\",args2=2)"
    ensures handler + "(args2=2,args1=\"" + text + "\")" == handler + "(args2=2,args1=\"this_is_args1\")"
  {
  }

  /** The ping handler's message: handler(args1="this_is_args1",args2=2),
      the two args in either order since Go's map iteration order is
      unspecified. */
  lemma PingMessage(handler: string, argOrder: seq<string>)
    requires ArgsOrderFits(Replay(PingCalls).args, argOrder)
    ensures var msg := Message(handler, Replay(PingCalls).args, argOrder);
      msg == handler + "(args1=\"this_is_args1\",args2=2)" || msg == handler + "(args2=2,args1=\"this_is_args1\")"
  {
    PingState();
    PingText("this_is_args1");
    PingShapedMessage(handler, Replay(PingCalls).args.value, argOrder, "this_is_args1");
    PingConcatText(handler, "this_is_args1");
  }

  /** The args rendering loop: appends one "k=%#v" token per visited key. */
  method RenderArgs(args: Option<map<string, Value>>, order: seq<string>) returns (argInfo: seq<string>)
    requires ArgsOrderFits(args, order)
    ensures argInfo == ArgTokens(args, order)
  {
    argInfo := [];
    if args.Some? {
      argInfo := AppendEntryTokens(argInfo, order, args.value, ArgToken);
    }
  }

  /** The code after c.Next(): extends the logger view field by field and
      logs one Info record with the rendered message. */
  method PostPhase(ctx: LogCtx, view: Entry, status: int, handler: string, cost: string, argOrder: seq<string>)
    returns (record: Entry)
    requires ArgsOrderFits(ctx.args, argOrder)
    ensures record == view.(statusCode := Some(VInt(status)),
                            metas := if ctx.metas.Some? then ctx.metas else view.metas, cost := Some(cost),
                            level := InfoLevel, message := Message(handler, ctx.args, argOrder))
  {
    var loggerWithCtx := view.(statusCode := Some(VInt(status)));
    if ctx.metas.Some? {
      loggerWithCtx := loggerWithCtx.(metas := ctx.metas);
    }
    loggerWithCtx := loggerWithCtx.(cost := Some(cost));
    var argInfo := RenderArgs(ctx.args, argOrder);
    record := loggerWithCtx.(level := InfoLevel, message := handler + "(" + Join(argInfo, ",") + ")");
  }

  function CountLevel(records: seq<Entry>, l: Level): nat
  {
    if |records| == 0 then 0
    else CountLevel(records[..|records| - 1], l) + (if records[|records| - 1].level == l then 1 else 0)
  }

  /** The records one request produces: the Error record of a failed uuid
      generation, if any, then the single Info record. */
  function RequestRecords(start: string, now: string, req: Request, gen: Result<string, string>, calls: seq<Call>,
                          status: int, handler: string, cost: string, argOrder: seq<string>): seq<Entry>
    requires ArgsOrderFits(Replay(calls).args, argOrder)
  {
    (if gen.Failure? then [IdErrorEntry(now, gen.error)] else [])
    + [PostEntry(start, req, RequestIdText(gen), Replay(calls), status, handler, cost, argOrder)]
  }

  /** The middleware writes exactly one Info record per request, and it is
      the last one written; its request id is the fresh uuid, or the nil
      UUID when generation failed, in which case the only other record is
      the Error record of that failure, written first. */
  lemma OneInfoRecord(start: string, now: string, req: Request, gen: Result<string, string>, calls: seq<Call>,
                      status: int, handler: string, cost: string, argOrder: seq<string>)
    requires ArgsOrderFits(Replay(calls).args, argOrder)
    ensures var rs := RequestRecords(start, now, req, gen, calls, status, handler, cost, argOrder);
      && CountLevel(rs, InfoLevel) == 1
      && rs[|rs| - 1].level == InfoLevel
      && rs[|rs| - 1].requestId == Some(VStr(if gen.Success? then gen.value else NilUuid))
      && (gen.Failure? <==> |rs| == 2)
      && (gen.Failure? ==> rs[0] == IdErrorEntry(now, gen.error) && rs[0].level == ErrorLevel)
  {
    var rs := RequestRecords(start, now, req, gen, calls, status, handler, cost, argOrder);
    if gen.Failure? {
      assert rs[..1] == [IdErrorEntry(now, gen.error)];
      assert rs[..1][..0] == [];
      assert CountLevel(rs[..1], InfoLevel) == 0;
    } else {
      assert rs[..0] == [];
      assert CountLevel(rs[..0], InfoLevel) == 0;
    }
  }

  /** The middleware closure for a handler whose name renders as `handler`:
      pre phase, the handler chain's accessor calls on the attached context,
      post phase. Returns the records written, in order. */
  method HandleRequest(start: string, now: string, req: Request, gen: Result<string, string>, calls: seq<Call>,
                       status: int, handler: string, cost: string, argOrder: seq<string>)
    returns (records: seq<Entry>)
    requires ArgsOrderFits(Replay(calls).args, argOrder)
    ensures records == RequestRecords(start, now, req, gen, calls, status, handler, cost, argOrder)
  {
    records := [];
    if gen.Failure? {
      records := records + [IdErrorEntry(now, gen.error)];
    }
    var requestId := RequestIdText(gen);
    var loggerWithCtx := PreEntry(start, req, requestId);
    var ctx := new LogCtx(true);
    // c.Next(): the handler chain runs and writes to the context
    var i := 0;
    while i < |calls|
      invariant 0 <= i <= |calls|
      invariant ctx.attached
      invariant ctx.State() == Replay(calls[..i])
    {
      var r: Outcome<string>;
      match calls[i] {
        case LogArg(k, v) =>
          r := ctx.AddLogArgs(k, v);
        case LogMeta(k, v) =>
          r := ctx.AddLogMeta(k, v);
      }
      i := i + 1;
      assert calls[..i][..i - 1] == calls[..i - 1];
    }
    assert calls[..i] == calls;
    var record := PostPhase(ctx, loggerWithCtx, status, handler, cost, argOrder);
    records := records + [record];
  }

  /** LoggerMiddlerware in log/log.go: the message starts with filepath.Base
      of the handler name. */
  method LoggerMiddleware(start: string, now: string, req: Request, gen: Result<string, string>, calls: seq<Call>,
                          status: int, handlerName: string, cost: string, argOrder: seq<string>)
    returns (records: seq<Entry>)
    requires ArgsOrderFits(Replay(calls).args, argOrder)
    ensures records == RequestRecords(start, now, req, gen, calls, status, BaseName(handlerName), cost, argOrder)
  {
    records := HandleRequest(start, now, req, gen, calls, status, BaseName(handlerName), cost, argOrder);
  }
}
