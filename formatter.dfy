/** Log records and GoryFormatter.Format, the function that turns one
    record into one line of text (log/log.go, repeated verbatim in gory.go).

    A line is a list of tokens joined by single spaces:
      header  [ip - status method uri id]  k => v ...  message  <cost>ms  "\n"
    where the bracketed group, the meta tokens and the cost token appear only
    when the record carries the corresponding fields. */
module Formatter {
  import opened Wrappers
  import opened GoText

  /** The values handlers put in the args and metas tables. */
  datatype Value = VStr(s: string) | VInt(i: int) | VBool(b: bool)

  /** fmt's %v: strings bare, ints in decimal, booleans as words. */
  function Render(v: Value): string
  {
    match v
    case VStr(s) => s
    case VInt(i) => IntToDecimal(i)
    case VBool(b) => if b then "true" else "false"
  }

  /** fmt's %#v: strings quoted, ints and booleans as %v prints them. */
  function GoSyntax(v: Value): string
  {
    match v
    case VStr(s) => Quote(s)
    case VInt(i) => IntToDecimal(i)
    case VBool(b) => if b then "true" else "false"
  }

  /** %#v is readable back: a string's quoted form unquotes to the string,
      an int's text parses to the int, and a boolean is a bare word. */
  lemma GoSyntaxReadsBack(v: Value)
    ensures v.VStr? ==> Unquote(GoSyntax(v)) == Some(v.s)
    ensures v.VInt? ==> ParseInt(GoSyntax(v)) == Some(v.i)
    ensures v.VBool? ==> GoSyntax(v) == Render(v)
  {
    match v
    case VStr(s) => QuoteRoundTrip(s);
    case VInt(i) => IntDecimalRoundTrip(i);
    case VBool(b) =>
  }

  /** logrus severities. */
  datatype Level = PanicLevel | FatalLevel | ErrorLevel | WarnLevel | InfoLevel | DebugLevel | TraceLevel

  /** What %v prints for a logrus level. */
  function LevelName(l: Level): string
  {
    match l
    case PanicLevel => "panic"
    case FatalLevel => "fatal"
    case ErrorLevel => "error"
    case WarnLevel => "warning"
    case InfoLevel => "info"
    case DebugLevel => "debug"
    case TraceLevel => "trace"
  }

  /** A logrus entry as the formatter sees it: its time already in RFC 3339
      form, its level, its message, and the data fields the formatter looks
      up (None when the key is absent from entry.Data). Cost is the already
      rendered float of milliseconds. */
  datatype Entry = Entry(
    time: string,
    level: Level,
    message: string,
    requestIp: Option<Value>,
    statusCode: Option<Value>,
    requestMethod: Option<Value>,
    requestUri: Option<Value>,
    requestId: Option<Value>,
    metas: Option<map<string, Value>>,
    cost: Option<string>)

  /** The formatter's process name and process id. */
  datatype GoryFormatter = GoryFormatter(pn: string, pid: int)

  // ---------------------------------------------------------------------------
  // Map iteration

  predicate Distinct(s: seq<string>)
  {
    forall i, j :: 0 <= i < j < |s| ==> s[i] != s[j]
  }

  /** Every visited key is a key of the map. */
  predicate KeysIn(order: seq<string>, m: map<string, Value>)
  {
    forall i :: 0 <= i < |order| ==> order[i] in m
  }

  /** `order` is one of the orders in which a Go range loop may visit `m`:
      distinct keys of `m`, as many as `m` has (so every key exactly once,
      see EnumerationCovers). */
  predicate Enumerates(order: seq<string>, m: map<string, Value>)
  {
    Distinct(order) && KeysIn(order, m) && |order| == |m|
  }

  lemma {:induction false} DistinctSetSize(s: seq<string>)
    requires Distinct(s)
    ensures |set k | k in s| == |s|
  {
    if |s| > 0 {
      var init := s[..|s| - 1];
      DistinctSetSize(init);
      assert (set k | k in s) == (set k | k in init) + {s[|s| - 1]};
    }
  }

  /** A Go range loop over a map visits every key. */
  lemma EnumerationCovers(order: seq<string>, m: map<string, Value>)
    requires Enumerates(order, m)
    ensures m.Keys == set k | k in order
  {
    DistinctSetSize(order);
    var visited := set k | k in order;
    assert visited <= m.Keys;
    var missed := m.Keys - visited;
    assert m.Keys == visited + missed && visited * missed == {};
    assert |missed| == 0;
  }

  /** The tokens one range loop appends, one per visited key, in visit order. */
  function MapTokens(order: seq<string>, m: map<string, Value>, tok: (string, Value) -> string): (r: seq<string>)
    requires KeysIn(order, m)
    ensures |r| == |order|
  {
    if |order| == 0 then []
    else MapTokens(order[..|order| - 1], m, tok) + [tok(order[|order| - 1], m[order[|order| - 1]])]
  }

  /** One more step of the range loop appends the next visited entry. */
  lemma MapTokensSnoc(order: seq<string>, m: map<string, Value>, tok: (string, Value) -> string, i: nat)
    requires KeysIn(order, m)
    requires i < |order|
    ensures KeysIn(order[..i], m) && KeysIn(order[..i + 1], m)
    ensures MapTokens(order[..i + 1], m, tok) == MapTokens(order[..i], m, tok) + [tok(order[i], m[order[i]])]
  {
    assert order[..i + 1][..i] == order[..i];
  }

  /** The i-th token is the i-th visited entry. */
  lemma {:induction false} MapTokensAt(order: seq<string>, m: map<string, Value>, tok: (string, Value) -> string, i: nat)
    requires KeysIn(order, m)
    requires i < |order|
    ensures MapTokens(order, m, tok)[i] == tok(order[i], m[order[i]])
  {
    if i < |order| - 1 {
      var init := order[..|order| - 1];
      MapTokensAt(init, m, tok, i);
    }
  }

  /** The multiset of the tokens of the entries of `m` whose keys are in
      `keys`, defined without reference to any order. */
  ghost function KeyTokens(keys: set<string>, m: map<string, Value>, tok: (string, Value) -> string): multiset<string>
    requires keys <= m.Keys
  {
    if keys == {} then multiset{}
    else
      var k :| k in keys;
      KeyTokens(keys - {k}, m, tok) + multiset{tok(k, m[k])}
  }

  /** The multiset of the tokens of all entries of `m`. */
  ghost function EntryTokens(m: map<string, Value>, tok: (string, Value) -> string): multiset<string>
  {
    KeyTokens(m.Keys, m, tok)
  }

  /** KeyTokens does not depend on which key it takes out first. */
  lemma {:induction false} KeyTokensRemove(keys: set<string>, k: string, m: map<string, Value>, tok: (string, Value) -> string)
    requires keys <= m.Keys && k in keys
    ensures KeyTokens(keys, m, tok) == KeyTokens(keys - {k}, m, tok) + multiset{tok(k, m[k])}
    decreases keys
  {
    var j :| j in keys && KeyTokens(keys, m, tok) == KeyTokens(keys - {j}, m, tok) + multiset{tok(j, m[j])};
    if j != k {
      KeyTokensRemove(keys - {j}, k, m, tok);
      KeyTokensRemove(keys - {k}, j, m, tok);
      assert keys - {j} - {k} == keys - {k} - {j};
    }
  }

  lemma {:induction false} DistinctMapTokens(order: seq<string>, m: map<string, Value>, tok: (string, Value) -> string)
    requires Distinct(order) && KeysIn(order, m)
    ensures multiset(MapTokens(order, m, tok)) == KeyTokens((set k | k in order), m, tok)
  {
    if |order| > 0 {
      var init, last := order[..|order| - 1], order[|order| - 1];
      assert order == init + [last];
      assert Distinct(init);
      DistinctMapTokens(init, m, tok);
      var keys, initKeys := (set k | k in order), (set k | k in init);
      assert last !in initKeys;
      assert keys == initKeys + {last};
      assert keys - {last} == initKeys;
      KeyTokensRemove(keys, last, m, tok);
      var t := tok(last, m[last]);
      assert MapTokens(order, m, tok) == MapTokens(init, m, tok) + [t];
      assert multiset(MapTokens(order, m, tok)) == multiset(MapTokens(init, m, tok)) + multiset{t};
    }
  }

  /** Whatever order the loop visits the map in, the tokens it appends are
      exactly the map's entries, each rendered once. */
  lemma MapTokensAreEntries(order: seq<string>, m: map<string, Value>, tok: (string, Value) -> string)
    requires Enumerates(order, m)
    ensures multiset(MapTokens(order, m, tok)) == EntryTokens(m, tok)
  {
    DistinctMapTokens(order, m, tok);
    EnumerationCovers(order, m);
  }

  /** The iteration order of a map changes the order of its tokens, never
      which tokens there are. */
  lemma MapTokensOrderIrrelevant(o1: seq<string>, o2: seq<string>, m: map<string, Value>, tok: (string, Value) -> string)
    requires Enumerates(o1, m) && Enumerates(o2, m)
    ensures multiset(MapTokens(o1, m, tok)) == multiset(MapTokens(o2, m, tok))
  {
    MapTokensAreEntries(o1, m, tok);
    MapTokensAreEntries(o2, m, tok);
  }

  // ---------------------------------------------------------------------------
  // The line

  /** "<time> <level> <pn>[<pid>]:" */
  function Header(f: GoryFormatter, e: Entry): string
  {
    e.time + " " + LevelName(e.level) + " " + f.pn + "[" + IntToDecimal(f.pid) + "]:"
  }

  /** The parts of the bracketed request group. */
  function GroupParts(e: Entry): seq<string>
  {
    IpPart(e.requestIp) + Part(e.statusCode) + Part(e.requestMethod) + Part(e.requestUri) + Part(e.requestId)
  }

  /** The ip and the "-" after it, if the ip is present. */
  function IpPart(o: Option<Value>): seq<string>
  {
    if o.Some? then [Render(o.value), "-"] else []
  }

  /** One group part, if its key is present. */
  function Part(o: Option<Value>): seq<string>
  {
    if o.Some? then [Render(o.value)] else []
  }

  /** At least one of the five request keys is in the entry. */
  predicate HasRequestField(e: Entry)
  {
    e.requestIp.Some? || e.statusCode.Some? || e.requestMethod.Some? || e.requestUri.Some? || e.requestId.Some?
  }

  function Count(o: Option<Value>): nat
  {
    if o.Some? then 1 else 0
  }

  /** Group presence and part order: there is one part per present key plus
      the "-" after the ip; the ip and its "-" come first and the id last. */
  lemma GroupLayout(e: Entry)
    ensures var p := GroupParts(e);
      && |p| == 2 * Count(e.requestIp) + Count(e.statusCode) + Count(e.requestMethod)
                + Count(e.requestUri) + Count(e.requestId)
      && (|p| > 0 <==> HasRequestField(e))
      && (e.requestIp.Some? ==> p[0] == Render(e.requestIp.value) && p[1] == "-")
      && (e.requestIp.None? && e.statusCode.Some? ==> p[0] == Render(e.statusCode.value))
      && (e.requestId.Some? ==> p[|p| - 1] == Render(e.requestId.value))
      && (e.requestIp.Some? && e.statusCode.Some? && e.requestMethod.Some? && e.requestUri.Some? && e.requestId.Some?
          ==> p == [Render(e.requestIp.value), "-", Render(e.statusCode.value), Render(e.requestMethod.value),
                    Render(e.requestUri.value), Render(e.requestId.value)])
  {
    GroupPresence(e);
  }

  /** The group has a part exactly when one of the five request keys is
      present, so its token is written exactly then. */
  lemma GroupPresence(e: Entry)
    ensures |GroupParts(e)| == 2 * Count(e.requestIp) + Count(e.statusCode) + Count(e.requestMethod)
                              + Count(e.requestUri) + Count(e.requestId)
    ensures |GroupParts(e)| > 0 <==> HasRequestField(e)
    ensures |GroupTokens(e)| == if HasRequestField(e) then 1 else 0
  {
  }

  /** %v of a []string: the elements space-joined in brackets. */
  function GroupTokens(e: Entry): seq<string>
  {
    var parts := GroupParts(e);
    if |parts| > 0 then ["[" + Join(parts, " ") + "]"] else []
  }

  function MetaToken(k: string, v: Value): string
  {
    k + " => " + Render(v)
  }

  /** The meta order fits the entry: a range order of its metas, if any. */
  predicate OrderFits(e: Entry, order: seq<string>)
  {
    e.metas.Some? ==> Enumerates(order, e.metas.value)
  }

  function MetaTokens(e: Entry, order: seq<string>): seq<string>
    requires OrderFits(e, order)
  {
    if e.metas.Some? then MapTokens(order, e.metas.value, MetaToken) else []
  }

  function CostTokens(e: Entry): seq<string>
  {
    if e.cost.Some? then [e.cost.value + "ms"] else []
  }

  /** The token list Format joins. */
  function Tokens(f: GoryFormatter, e: Entry, order: seq<string>): seq<string>
    requires OrderFits(e, order)
  {
    [Header(f, e)] + GroupTokens(e) + MetaTokens(e, order) + [e.message] + CostTokens(e) + ["\n"]
  }

  /** The line Format returns. */
  function Line(f: GoryFormatter, e: Entry, order: seq<string>): string
    requires OrderFits(e, order)
  {
    Join(Tokens(f, e, order), " ")
  }

  /** Token order: header, group if any request key is present, one token
      per meta entry, message, cost if present, and the final newline. */
  lemma TokenLayout(f: GoryFormatter, e: Entry, order: seq<string>)
    requires OrderFits(e, order)
    ensures var t := Tokens(f, e, order);
      var g := if HasRequestField(e) then 1 else 0;
      var n := if e.metas.Some? then |e.metas.value| else 0;
      var c := if e.cost.Some? then 1 else 0;
      && |t| == 3 + g + n + c
      && t[0] == Header(f, e)
      && (g == 1 ==> t[1] == "[" + Join(GroupParts(e), " ") + "]")
      && (forall i :: 0 <= i < n ==> t[1 + g + i] == MetaToken(order[i], e.metas.value[order[i]]))
      && t[1 + g + n] == e.message
      && (c == 1 ==> t[2 + g + n] == e.cost.value + "ms")
      && t[|t| - 1] == "\n"
  {
    TokenFrame(f, e, order);
    if e.metas.Some? {
      var g := if HasRequestField(e) then 1 else 0;
      forall i | 0 <= i < |e.metas.value|
        ensures Tokens(f, e, order)[1 + g + i] == MetaToken(order[i], e.metas.value[order[i]])
      {
        MetaTokenPosition(f, e, order, i);
      }
    }
  }

  /** The tokens around the metas: the count, the header, the group, the
      message, the cost and the newline. */
  lemma TokenFrame(f: GoryFormatter, e: Entry, order: seq<string>)
    requires OrderFits(e, order)
    ensures var t := Tokens(f, e, order);
      var g := if HasRequestField(e) then 1 else 0;
      var n := if e.metas.Some? then |e.metas.value| else 0;
      var c := if e.cost.Some? then 1 else 0;
      && |t| == 3 + g + n + c
      && t[0] == Header(f, e)
      && (g == 1 ==> t[1] == "[" + Join(GroupParts(e), " ") + "]")
      && t[1 + g + n] == e.message
      && (c == 1 ==> t[2 + g + n] == e.cost.value + "ms")
      && t[|t| - 1] == "\n"
  {
    GroupPresence(e);
    var t := Tokens(f, e, order);
    var gt, mt, ct := GroupTokens(e), MetaTokens(e, order), CostTokens(e);
    TokenPositions(Header(f, e), gt, mt, e.message, ct);
    var g := if HasRequestField(e) then 1 else 0;
    var n := if e.metas.Some? then |e.metas.value| else 0;
    var c := if e.cost.Some? then 1 else 0;
    assert |gt| == g && |mt| == n && |ct| == c;
    assert t == [Header(f, e)] + gt + mt + [e.message] + ct + ["\n"];
    assert t[1 + g + n] == e.message;
    assert c == 1 ==> t[2 + g + n] == ct[0] == e.cost.value + "ms";
    assert g == 1 ==> t[1] == gt[0] == "[" + Join(GroupParts(e), " ") + "]";
  }

  /** The token of the i-th visited meta key. */
  lemma MetaTokenPosition(f: GoryFormatter, e: Entry, order: seq<string>, i: int)
    requires OrderFits(e, order) && e.metas.Some? && 0 <= i < |e.metas.value|
    ensures var g := if HasRequestField(e) then 1 else 0;
      Tokens(f, e, order)[1 + g + i] == MetaToken(order[i], e.metas.value[order[i]])
  {
    GroupPresence(e);
    MapTokensAt(order, e.metas.value, MetaToken, i);
    TokenPositions(Header(f, e), GroupTokens(e), MetaTokens(e, order), e.message, CostTokens(e));
  }

  /** Where each part lands in the list header, group, metas, message,
      cost, newline. */
  lemma TokenPositions(h: string, gt: seq<string>, mt: seq<string>, msg: string, ct: seq<string>)
    ensures var t := [h] + gt + mt + [msg] + ct + ["\n"];
      && |t| == 3 + |gt| + |mt| + |ct|
      && t[0] == h
      && (|gt| > 0 ==> t[1] == gt[0])
      && (forall i :: 0 <= i < |mt| ==> t[1 + |gt| + i] == mt[i])
      && t[1 + |gt| + |mt|] == msg
      && (|ct| > 0 ==> t[2 + |gt| + |mt|] == ct[0])
      && t[|t| - 1] == "\n"
  {
    var p1 := [h] + gt;
    var p2 := p1 + mt;
    var p3 := p2 + [msg];
    var t := p3 + ct + ["\n"];
    assert t[|p2|] == p3[|p2|];
    forall i | 0 <= i < |mt|
      ensures t[1 + |gt| + i] == mt[i]
    {
      assert t[|p1| + i] == p2[|p1| + i];
    }
  }

  /** The meta tokens of a line are the entries of its metas map, one
      token each, whatever the iteration order; without metas there are
      none. */
  lemma MetaTokensAreEntries(e: Entry, order: seq<string>)
    requires OrderFits(e, order)
    ensures e.metas.None? ==> MetaTokens(e, order) == []
    ensures e.metas.Some? ==> multiset(MetaTokens(e, order)) == EntryTokens(e.metas.value, MetaToken)
  {
    if e.metas.Some? {
      MapTokensAreEntries(order, e.metas.value, MetaToken);
    }
  }

  /** Every line starts with the header and a space and ends in " \n". */
  lemma LineFrame(f: GoryFormatter, e: Entry, order: seq<string>)
    requires OrderFits(e, order)
    ensures var out := Line(f, e, order);
      var h := Header(f, e) + " ";
      && |out| >= |h| + 2
      && out[..|h|] == h
      && out[|out| - 2..] == " \n"
  {
    var t := Tokens(f, e, order);
    TokenFrame(f, e, order);
    var middle := t[1..|t| - 1];
    assert t == [t[0]] + middle + [t[|t| - 1]];
    JoinFrame(t[0], middle, t[|t| - 1], " ");
  }

  /** Absent fields leave no trace: a record with none of the optional keys
      is just header, message and newline. */
  lemma BareLine(f: GoryFormatter, e: Entry, order: seq<string>)
    requires !HasRequestField(e) && e.metas.None? && e.cost.None?
    ensures Line(f, e, order) == Header(f, e) + " " + e.message + " \n"
  {
    assert Tokens(f, e, order) == [Header(f, e)] + [e.message] + ["\n"];
    JoinFrame(Header(f, e), [e.message], "\n", " ");
  }

  /** The example of a record whose metas are {"a": "1", "b": "2"}: its
      meta tokens are "a => 1" and "b => 2", in one order or the other. */
  lemma TwoMetasExample(e: Entry, order: seq<string>)
    requires e.metas == Some(map["a" := VStr("1"), "b" := VStr("2")])
    requires OrderFits(e, order)
    ensures var mt := MetaTokens(e, order);
      mt == ["a => 1", "b => 2"] || mt == ["b => 2", "a => 1"]
  {
    var m := e.metas.value;
    assert |order| == 2 && order[0] in m && order[1] in m && order[0] != order[1];
    var mt := MapTokens(order, m, MetaToken);
    MapTokensAt(order, m, MetaToken, 0);
    MapTokensAt(order, m, MetaToken, 1);
    assert "a" + " => " + "1" == "a => 1";
    assert "b" + " => " + "2" == "b => 2";
    if order[0] == "a" {
      assert mt == ["a => 1", "b => 2"];
    } else {
      assert mt == ["b => 2", "a => 1"];
    }
  }

  /** A range loop over `m` in the order `order` that appends one token per
      visited entry to `acc`. */
  method AppendEntryTokens(acc: seq<string>, order: seq<string>, m: map<string, Value>, tok: (string, Value) -> string)
    returns (out: seq<string>)
    requires KeysIn(order, m)
    ensures out == acc + MapTokens(order, m, tok)
  {
    out := acc;
    var i := 0;
    while i < |order|
      invariant 0 <= i <= |order|
      invariant KeysIn(order[..i], m)
      invariant out == acc + MapTokens(order[..i], m, tok)
    {
      var k := order[i];
      MapTokensSnoc(order, m, tok, i);
      out := out + [tok(k, m[k])];
      i := i + 1;
    }
    assert order[..i] == order;
  }

  /** The parts of the request group, appended key by key. */
  method RequestInfo(entry: Entry) returns (reqInfo: seq<string>)
    ensures reqInfo == GroupParts(entry)
  {
    reqInfo := [];
    if entry.requestIp.Some? {
      reqInfo := reqInfo + [Render(entry.requestIp.value)];
      reqInfo := reqInfo + ["-"];
    }
    assert reqInfo == IpPart(entry.requestIp);
    if entry.statusCode.Some? {
      reqInfo := reqInfo + [Render(entry.statusCode.value)];
    }
    assert reqInfo == IpPart(entry.requestIp) + Part(entry.statusCode);
    if entry.requestMethod.Some? {
      reqInfo := reqInfo + [Render(entry.requestMethod.value)];
    }
    assert reqInfo == IpPart(entry.requestIp) + Part(entry.statusCode) + Part(entry.requestMethod);
    if entry.requestUri.Some? {
      reqInfo := reqInfo + [Render(entry.requestUri.value)];
    }
    assert reqInfo == IpPart(entry.requestIp) + Part(entry.statusCode) + Part(entry.requestMethod)
                      + Part(entry.requestUri);
    if entry.requestId.Some? {
      reqInfo := reqInfo + [Render(entry.requestId.value)];
    }
  }

  /** GoryFormatter.Format: appends the tokens to `rlt` one by one and joins
      them; the error result is always nil. */
  method Format(f: GoryFormatter, entry: Entry, metaOrder: seq<string>) returns (line: string, err: Option<string>)
    requires OrderFits(entry, metaOrder)
    ensures line == Line(f, entry, metaOrder)
    ensures err == None
  {
    var rlt: seq<string> := [];
    rlt := rlt + [Header(f, entry)];
    var reqInfo := RequestInfo(entry);
    if |reqInfo| > 0 {
      rlt := rlt + ["[" + Join(reqInfo, " ") + "]"];
    }
    ghost var before := rlt;
    assert before == [Header(f, entry)] + GroupTokens(entry);
    if entry.metas.Some? {
      rlt := AppendEntryTokens(rlt, metaOrder, entry.metas.value, MetaToken);
    }
    assert rlt == before + MetaTokens(entry, metaOrder);
    rlt := rlt + [entry.message];
    ghost var withMessage := rlt;
    if entry.cost.Some? {
      rlt := rlt + [entry.cost.value + "ms"];
    }
    assert rlt == withMessage + CostTokens(entry);
    rlt := rlt + ["\n"];
    assert rlt == Tokens(f, entry, metaOrder);
    line := Join(rlt, " ");
    err := None;
  }
}
