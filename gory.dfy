/** gory.go, the single-file version of the kernel: the same formatter and
    request log context as log/log.go (modelled once, in Formatter and
    RequestLog), a logging middleware that puts the raw handler name in the
    message instead of its last path element, and two example handlers. */
module Gory {
  import opened Wrappers
  import opened GoText
  import opened Formatter
  import opened RequestLog
  import opened Middleware

  /** LoggerMiddlerware in gory.go: the message starts with c.HandlerName()
      as it is. */
  method LoggerMiddleware(start: string, now: string, req: Request, gen: Result<string, string>, calls: seq<Call>,
                          status: int, handlerName: string, cost: string, argOrder: seq<string>)
    returns (records: seq<Entry>)
    requires ArgsOrderFits(Replay(calls).args, argOrder)
    ensures records == RequestRecords(start, now, req, gen, calls, status, handlerName, cost, argOrder)
  {
    records := HandleRequest(start, now, req, gen, calls, status, handlerName, cost, argOrder);
  }

  /** The two middlewares write the same records for a handler whose name
      has no '/' (a handler declared in package main, such as
      "main.root.func1"). */
  lemma VariantsAgree(start: string, now: string, req: Request, gen: Result<string, string>, calls: seq<Call>,
                      status: int, handlerName: string, cost: string, argOrder: seq<string>)
    requires ArgsOrderFits(Replay(calls).args, argOrder)
    requires |handlerName| > 0 && '/' !in handlerName
    ensures RequestRecords(start, now, req, gen, calls, status, BaseName(handlerName), cost, argOrder)
            == RequestRecords(start, now, req, gen, calls, status, handlerName, cost, argOrder)
  {
    assert BaseName(handlerName) == handlerName;
  }

  /** For a handler name with a '/', the log/log.go message starts with the
      last path element only: the text after the last '/' once trailing
      slashes are dropped, where gory.go keeps the whole name. */
  lemma VariantsDiffer(handlerName: string)
    requires '/' in handlerName && |StripTrailingSlashes(handlerName)| > 0
    ensures var p, b := StripTrailingSlashes(handlerName), BaseName(handlerName);
      && b != handlerName
      && '/' !in b
      && |b| <= |p| && b == p[|p| - |b|..]
      && (|b| == |p| || p[|p| - |b| - 1] == '/')
  {
    BaseNameIsLastElement(handlerName);
  }

  /** A handler declared in another package has a name dir + "/" + elem;
      the log/log.go middleware writes the records gory.go would write for
      a handler named elem. */
  lemma PackagedHandler(start: string, now: string, req: Request, gen: Result<string, string>, calls: seq<Call>,
                        status: int, dir: string, elem: string, cost: string, argOrder: seq<string>)
    requires ArgsOrderFits(Replay(calls).args, argOrder)
    requires |elem| > 0 && '/' !in elem
    ensures RequestRecords(start, now, req, gen, calls, status, BaseName(dir + "/" + elem), cost, argOrder)
            == RequestRecords(start, now, req, gen, calls, status, elem, cost, argOrder)
  {
    BaseNameLastElement(dir, elem);
  }

  /** The metas token of the root ping handler. The literals come in as
      parameters so that the proofs that use this fact do not unfold the
      formatting functions on them. */
  lemma MetaTokenText(key: string, text: string)
    requires key == "meta" && text == "this_is_meta_data"
    ensures MetaToken(key, VStr(text)) == "meta => this_is_meta_data"
  {
  }

  /** The line the root group's /ping handler produces: header, request
      group, its one meta token, the message with its two args in either
      order, the cost and the newline. */
  lemma RootPingLine(f: GoryFormatter, start: string, req: Request, reqId: string, status: int,
                     handlerName: string, cost: string, argOrder: seq<string>, metaOrder: seq<string>)
    requires ArgsOrderFits(Replay(PingCalls).args, argOrder)
    requires Replay(PingCalls).metas.Some? ==> Enumerates(metaOrder, Replay(PingCalls).metas.value)
    ensures var e := PostEntry(start, req, reqId, Replay(PingCalls), status, handlerName, cost, argOrder);
      var t := Tokens(f, e, metaOrder);
      && |t| == 6
      && t[1] == "[" + req.clientIp + " - " + IntToDecimal(status) + " " + req.verb + " " + req.uri + " " + reqId + "]"
      && t[2] == "meta => this_is_meta_data"
      && (t[3] == handlerName + "(args1=\"this_is_args1\",args2=2)"
          || t[3] == handlerName + "(args2=2,args1=\"this_is_args1\")")
      && t[4] == cost + "ms"
      && t[5] == "\n"
  {
    var st := Replay(PingCalls);
    var e := PostEntry(start, req, reqId, st, status, handlerName, cost, argOrder);
    PingState();
    var metas := st.metas.value;
    assert |metaOrder| == 1 && metaOrder[0] in metas;
    assert metaOrder[0] == "meta";
    RequestLine(f, start, req, reqId, st, status, handlerName, cost, argOrder, metaOrder);
    TokenLayout(f, e, metaOrder);
    MetaTokenText(metaOrder[0], metas[metaOrder[0]].s);
    PingMessage(handlerName, argOrder);
  }

  /** The line the goffer group's /ping handler produces: it never writes
      to the context, so the line has no meta tokens and the message is the
      handler name followed by "()". */
  lemma GofferPingLine(f: GoryFormatter, start: string, req: Request, reqId: string, status: int,
                       handlerName: string, cost: string)
    ensures var e := PostEntry(start, req, reqId, Replay([]), status, handlerName, cost, []);
      Tokens(f, e, []) == [Header(f, e),
                           "[" + req.clientIp + " - " + IntToDecimal(status) + " " + req.verb + " " + req.uri + " " + reqId + "]",
                           handlerName + "()",
                           cost + "ms",
                           "\n"]
  {
    var st := Replay([]);
    var e := PostEntry(start, req, reqId, st, status, handlerName, cost, []);
    MessageShape(handlerName, st.args, []);
    RequestLine(f, start, req, reqId, st, status, handlerName, cost, [], []);
    TokenLayout(f, e, []);
  }
}
