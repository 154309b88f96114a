/** Round trip, framing and prefix-freeness of the RESP codec (worker/internal/store/resp.go). */
module RespFraming {
  import opened Domain
  import opened Decimal
  import opened Resp

  const Crlf: Bytes := "\r\n"

  // ----- the command printer -----

  function EncodeArgs(args: seq<Bytes>): Bytes {
    if args == [] then "" else "$" + Itoa(|args[0]|) + Crlf + args[0] + Crlf + EncodeArgs(args[1..])
  }

  function EncodeCommand(args: seq<Bytes>): Bytes {
    "*" + Itoa(|args|) + Crlf + EncodeArgs(args)
  }

  class Writer {
    var output: Bytes

    constructor ()
      ensures output == ""
    {
      output := "";
    }

    method Print(text: Bytes)
      modifies this
      ensures output == old(output) + text
    {
      output := output + text;
    }

    method WriteCommand(args: seq<Bytes>)
      modifies this
      ensures output == old(output) + EncodeCommand(args)
    {
      Print("*" + Itoa(|args|) + Crlf);
      ghost var header := output;
      assert args[0..] == args;
      for i := 0 to |args|
        invariant output + EncodeArgs(args[i..]) == header + EncodeArgs(args)
      {
        ArgStep(output, args, i);
        Print("$" + Itoa(|args[i]|) + Crlf + args[i] + Crlf);
      }
      ArgsDone(old(output), args, output);
    }
  }

  lemma ArgStep(done: Bytes, args: seq<Bytes>, i: nat)
    requires i < |args|
    ensures done + EncodeArgs(args[i..]) ==
            done + ("$" + Itoa(|args[i]|) + Crlf + args[i] + Crlf) + EncodeArgs(args[i + 1..])
  {
    assert args[i..][0] == args[i] && args[i..][1..] == args[i + 1..];
  }

  lemma ArgsDone(before: Bytes, args: seq<Bytes>, after: Bytes)
    requires after + EncodeArgs(args[|args|..]) == before + ("*" + Itoa(|args|) + Crlf) + EncodeArgs(args)
    ensures after == before + EncodeCommand(args)
  {
    assert args[|args|..] == [];
    Regroup(before, "*" + Itoa(|args|) + Crlf, EncodeArgs(args), after);
  }

  lemma Regroup(before: Bytes, header: Bytes, body: Bytes, after: Bytes)
    requires after + "" == before + header + body
    ensures after == before + (header + body)
  {
    assert after + "" == after;
  }

  // ----- the replies a server may send -----

  datatype Wire =
    | WSimple(text: Bytes)
    | WError(text: Bytes)
    | WInteger(text: Bytes)
    | WBulk(data: Bytes)
    | WNullBulk
    | WArray(items: seq<Wire>)
    | WNullArray

  /** RESP2 framing, sections "Simple strings" to "Arrays" of the Redis serialization protocol specification. */
  function Encode(w: Wire): Bytes {
    match w
    case WSimple(text) => "+" + text + Crlf
    case WError(text) => "-" + text + Crlf
    case WInteger(text) => ":" + text + Crlf
    case WBulk(data) => "$" + (Itoa(|data|) + Crlf + (data + Crlf))
    case WNullBulk => "$-1\r\n"
    case WArray(items) => "*" + (Itoa(|items|) + Crlf + EncodeAll(items))
    case WNullArray => "*-1\r\n"
  }

  function EncodeAll(ws: seq<Wire>): Bytes {
    if ws == [] then "" else Encode(ws[0]) + EncodeAll(ws[1..])
  }

  /** Lines hold no line feed, and the reader can allocate what the lengths ask for. */
  predicate WellFormed(w: Wire) {
    match w
    case WSimple(text) => '\n' !in text
    case WError(text) => '\n' !in text
    case WInteger(text) => '\n' !in text
    case WBulk(data) => |data| + 2 <= MaxAlloc
    case WArray(items) => |items| <= MaxItems && forall i :: 0 <= i < |items| ==> WellFormed(items[i])
    case _ => true
  }

  predicate AllWellFormed(ws: seq<Wire>) {
    forall i :: 0 <= i < |ws| ==> WellFormed(ws[i])
  }

  /** What the client should make of a reply that is followed by `t`: its value, or, at the first error inside it, the
      error text with the rest of the reply still unread. */
  function Meaning(w: Wire, t: Bytes): (r: Outcome<RespValue>)
    ensures !r.Broken?
  {
    match w
    case WSimple(text) => Got(Simple(text), t)
    case WError(text) => ServerError(text, t)
    case WInteger(text) => Got(Integer(text), t)
    case WBulk(data) => Got(Bulk(data), t)
    case WNullBulk => Got(NullBulk, t)
    case WArray(items) =>
      (match MeaningAll(items, t)
       case ServerError(text, rest) => ServerError(text, rest)
       case Got(values, rest) => Got(Array(values), rest))
    case WNullArray => Got(NullArray, t)
  }

  function MeaningAll(ws: seq<Wire>, t: Bytes): (r: Outcome<seq<RespValue>>)
    ensures !r.Broken?
  {
    if ws == [] then Got([], t)
    else match Meaning(ws[0], EncodeAll(ws[1..]) + t)
      case ServerError(text, rest) => ServerError(text, rest)
      case Got(value, _) =>
        (match MeaningAll(ws[1..], t)
         case ServerError(text, rest) => ServerError(text, rest)
         case Got(values, rest) => Got([value] + values, rest))
  }

  // ----- lines and lengths -----

  lemma {:induction false} LineEndAt(line: Bytes, t: Bytes)
    requires '\n' !in line
    ensures LineEnd(line + "\n" + t) == |line|
  {
    var s := line + "\n" + t;
    if line == [] {
      assert s[0] == '\n';
    } else {
      assert line[0] in line;
      assert s[0] == line[0] && s[1..] == line[1..] + "\n" + t;
      LineEndAt(line[1..], t);
    }
  }

  lemma ReadLineBack(text: Bytes, t: Bytes)
    requires '\n' !in text
    ensures ReadLine(text + Crlf + t) == Got(text, t)
  {
    var line := text + "\r";
    var s := text + Crlf + t;
    assert s == line + "\n" + t;
    LineEndAt(line, t);
    assert s[..|line|] == line && s[|line| + 1..] == t;
    assert line[..|line| - 1] == text;
  }

  lemma ReadLengthBack(n: nat, t: Bytes)
    requires n <= MaxInt64
    ensures ReadLength(Itoa(n) + Crlf + t) == Got(n, t)
  {
    forall i | 0 <= i < |Itoa(n)| ensures Itoa(n)[i] != '\n' { assert IsDigit(Itoa(n)[i]); }
    ReadLineBack(Itoa(n), t);
    AtoiItoa(n);
  }

  lemma ReadMinusOne(t: Bytes)
    ensures ReadLength("-1" + Crlf + t) == Got(-1, t)
  {
    ReadLineBack("-1", t);
    assert ("-1")[1..] == "1";
    assert ValueOf("1") == 1;
  }

  // ----- the reader understands every well-formed reply -----

  lemma LineReply(c: char, text: Bytes, t: Bytes)
    requires '\n' !in text
    ensures var s := [c] + text + Crlf + t; s != [] && s[0] == c && ReadLine(s[1..]) == Got(text, t)
  {
    var s := [c] + text + Crlf + t;
    assert s[1..] == text + Crlf + t;
    ReadLineBack(text, t);
  }

  lemma BulkReply(data: Bytes, t: Bytes)
    requires |data| + 2 <= MaxAlloc
    ensures ReadReply(Encode(WBulk(data)) + t) == Got(Bulk(data), t)
  {
    var s := Encode(WBulk(data)) + t;
    assert s[1..] == Itoa(|data|) + Crlf + (data + Crlf + t);
    ReadLengthBack(|data|, data + Crlf + t);
    assert (data + Crlf + t)[..|data|] == data && (data + Crlf + t)[|data| + 2..] == t;
  }

  lemma NullReplies(t: Bytes)
    ensures ReadReply(Encode(WNullBulk) + t) == Got(NullBulk, t)
    ensures ReadReply(Encode(WNullArray) + t) == Got(NullArray, t)
  {
    assert ("$-1\r\n" + t)[1..] == "-1" + Crlf + t;
    assert ("*-1\r\n" + t)[1..] == "-1" + Crlf + t;
    StarIsArray("*-1\r\n" + t);
    ReadMinusOne(t);
  }

  lemma HeaderTail(c: char, header: Bytes, body: Bytes, t: Bytes)
    ensures var s := [c] + (header + body) + t; s != [] && s[0] == c && s[1..] == header + (body + t)
  {
  }

  lemma ArrayOf(s: Bytes, body: Bytes, n: nat)
    requires ReadLength(s) == Got(n, body) && n <= MaxItems
    ensures ReadArray(s) == match ReadItems(body, n)
      case Broken(why) => Broken(why)
      case ServerError(text, left) => ServerError(text, left)
      case Got(items, left) => Got(Array(items), left)
  {
  }

  lemma StarIsArray(s: Bytes)
    requires s != [] && s[0] == '*'
    ensures ReadReply(s) == ReadArray(s[1..])
  {
    assert ReadTyped('*', s[1..]) == ReadArray(s[1..]);
  }

  lemma ArrayReply(items: seq<Wire>, t: Bytes)
    requires |items| <= MaxItems
    requires ReadItems(EncodeAll(items) + t, |items|) == MeaningAll(items, t)
    ensures ReadReply(Encode(WArray(items)) + t) == Meaning(WArray(items), t)
  {
    var body := EncodeAll(items) + t;
    var s := Encode(WArray(items)) + t;
    HeaderTail('*', Itoa(|items|) + Crlf, EncodeAll(items), t);
    ReadLengthBack(|items|, body);
    StarIsArray(s);
    ArrayOf(s[1..], body, |items|);
  }

  /** For every well-formed reply, nested arrays, nulls and errors included, and whatever follows it in the stream. */
  lemma {:induction false} ReaderIsExact(w: Wire, t: Bytes)
    requires WellFormed(w)
    ensures ReadReply(Encode(w) + t) == Meaning(w, t)
  {
    match w
    case WSimple(text) => LineReply('+', text, t);
    case WError(text) => LineReply('-', text, t);
    case WInteger(text) => LineReply(':', text, t);
    case WBulk(data) => BulkReply(data, t);
    case WNullBulk => NullReplies(t);
    case WArray(items) => ItemsAreExact(items, t); ArrayReply(items, t);
    case WNullArray => NullReplies(t);
  }

  lemma {:induction false} ItemsAreExact(ws: seq<Wire>, t: Bytes)
    requires AllWellFormed(ws)
    ensures ReadItems(EncodeAll(ws) + t, |ws|) == MeaningAll(ws, t)
  {
    if ws == [] {
      assert "" + t == t;
    } else {
      var after := EncodeAll(ws[1..]) + t;
      assert EncodeAll(ws) + t == Encode(ws[0]) + after;
      ReaderIsExact(ws[0], after);
      ItemsAreExact(ws[1..], t);
      MeaningRest(ws[0], after);
    }
  }

  lemma {:induction false} MeaningRest(w: Wire, t: Bytes)
    ensures Meaning(w, t).Got? ==> Meaning(w, t).rest == t
  {
    if w.WArray? { MeaningAllRest(w.items, t); }
  }

  lemma {:induction false} MeaningAllRest(ws: seq<Wire>, t: Bytes)
    ensures MeaningAll(ws, t).Got? ==> MeaningAll(ws, t).rest == t
  {
    if ws != [] { MeaningAllRest(ws[1..], t); }
  }

  // ----- commands: round trip and pipelining -----

  function Bulks(args: seq<Bytes>): (r: seq<Wire>)
    ensures |r| == |args| && forall i :: 0 <= i < |args| ==> r[i] == WBulk(args[i])
  {
    if args == [] then [] else [WBulk(args[0])] + Bulks(args[1..])
  }

  function BulkValues(args: seq<Bytes>): (r: seq<RespValue>)
    ensures |r| == |args| && forall i :: 0 <= i < |args| ==> r[i] == Bulk(args[i])
  {
    if args == [] then [] else [Bulk(args[0])] + BulkValues(args[1..])
  }

  /** The reader can allocate the pieces of the command. */
  predicate Sendable(args: seq<Bytes>) {
    |args| <= MaxItems && forall i :: 0 <= i < |args| ==> |args[i]| + 2 <= MaxAlloc
  }

  lemma {:induction false} ArgsAreBulks(args: seq<Bytes>)
    ensures EncodeArgs(args) == EncodeAll(Bulks(args))
  {
    if args != [] {
      ArgsAreBulks(args[1..]);
      assert Bulks(args)[1..] == Bulks(args[1..]);
    }
  }

  lemma CommandIsArray(args: seq<Bytes>)
    ensures EncodeCommand(args) == Encode(WArray(Bulks(args)))
  {
    ArgsAreBulks(args);
    assert "*" + Itoa(|args|) + Crlf + EncodeArgs(args) == "*" + (Itoa(|args|) + Crlf + EncodeArgs(args));
  }

  lemma {:induction false} BulksMean(args: seq<Bytes>, t: Bytes)
    ensures MeaningAll(Bulks(args), t) == Got(BulkValues(args), t)
  {
    if args != [] {
      BulksMean(args[1..], t);
      assert Bulks(args)[1..] == Bulks(args[1..]);
    }
  }

  /** A command read back from the front of any stream is the array of its arguments, and exactly its bytes are used. */
  lemma CommandRoundTrip(args: seq<Bytes>, t: Bytes)
    requires Sendable(args)
    ensures ReadReply(EncodeCommand(args) + t) == Got(Array(BulkValues(args)), t)
  {
    CommandIsArray(args);
    ReaderIsExact(WArray(Bulks(args)), t);
    BulksMean(args, t);
  }

  function EncodeCommands(commands: seq<seq<Bytes>>): Bytes {
    if commands == [] then "" else EncodeCommand(commands[0]) + EncodeCommands(commands[1..])
  }

  function CommandValues(commands: seq<seq<Bytes>>): (r: seq<RespValue>)
    ensures |r| == |commands| && forall i :: 0 <= i < |commands| ==> r[i] == Array(BulkValues(commands[i]))
  {
    if commands == [] then [] else [Array(BulkValues(commands[0]))] + CommandValues(commands[1..])
  }

  /** Any number of commands written back to back are read back one by one, in order, leaving what follows them. */
  lemma {:induction false} PipelineRoundTrip(commands: seq<seq<Bytes>>, t: Bytes)
    requires forall i :: 0 <= i < |commands| ==> Sendable(commands[i])
    ensures ReadItems(EncodeCommands(commands) + t, |commands|) == Got(CommandValues(commands), t)
  {
    if commands == [] {
      assert "" + t == t;
    } else {
      var after := EncodeCommands(commands[1..]) + t;
      assert EncodeCommands(commands) + t == EncodeCommand(commands[0]) + after;
      CommandRoundTrip(commands[0], after);
      PipelineRoundTrip(commands[1..], t);
    }
  }

  // ----- the reader never looks past the reply -----

  function Extended<T>(o: Outcome<T>, t: Bytes): Outcome<T> {
    match o
    case Got(value, rest) => Got(value, rest + t)
    case ServerError(text, rest) => ServerError(text, rest + t)
    case Broken(why) => Broken(why)
  }

  lemma {:induction false} LineEndLocal(s: Bytes, t: Bytes)
    requires LineEnd(s) < |s|
    ensures LineEnd(s + t) == LineEnd(s)
  {
    assert (s + t)[0] == s[0];
    if s[0] != '\n' {
      assert (s + t)[1..] == s[1..] + t;
      LineEndLocal(s[1..], t);
    }
  }

  lemma ReadLineLocal(s: Bytes, t: Bytes)
    requires ReadLine(s).Got?
    ensures ReadLine(s + t) == Extended(ReadLine(s), t)
  {
    LineEndLocal(s, t);
    var i := LineEnd(s);
    assert (s + t)[..i] == s[..i] && (s + t)[i + 1..] == s[i + 1..] + t;
  }

  lemma ReadLengthLocal(s: Bytes, t: Bytes)
    requires ReadLength(s).Got?
    ensures ReadLength(s + t) == Extended(ReadLength(s), t)
  {
    ReadLineLocal(s, t);
  }

  lemma ReadBulkLocal(s: Bytes, t: Bytes)
    requires !ReadBulk(s).Broken?
    ensures ReadBulk(s + t) == Extended(ReadBulk(s), t)
  {
    ReadLengthLocal(s, t);
    var n, rest := ReadLength(s).value, ReadLength(s).rest;
    if n >= 0 {
      assert (rest + t)[..n] == rest[..n] && (rest + t)[n + 2..] == rest[n + 2..] + t;
    }
  }

  /** Bytes that arrive later change neither a reply that is already complete nor what is left after it. */
  lemma {:induction false} ReadReplyLocal(s: Bytes, t: Bytes)
    requires !ReadReply(s).Broken?
    ensures ReadReply(s + t) == Extended(ReadReply(s), t)
    decreases |s|, 0
  {
    assert (s + t)[0] == s[0] && (s + t)[1..] == s[1..] + t;
    match s[0]
    case '+' => ReadLineLocal(s[1..], t);
    case '-' => ReadLineLocal(s[1..], t);
    case ':' => ReadLineLocal(s[1..], t);
    case '$' => ReadBulkLocal(s[1..], t);
    case '*' => StarIsArray(s); StarIsArray(s + t); ReadArrayLocal(s[1..], t);
    case _ =>
  }

  lemma {:induction false} ReadArrayLocal(s: Bytes, t: Bytes)
    requires !ReadArray(s).Broken?
    ensures ReadArray(s + t) == Extended(ReadArray(s), t)
    decreases |s|, 3
  {
    ReadLengthLocal(s, t);
    var n, rest := ReadLength(s).value, ReadLength(s).rest;
    if 0 <= n <= MaxItems {
      ArrayOf(s, rest, n);
      ReadItemsLocal(rest, n, t);
      ArrayOf(s + t, rest + t, n);
    }
  }

  lemma {:induction false} ReadItemsLocal(s: Bytes, n: nat, t: Bytes)
    requires !ReadItems(s, n).Broken?
    ensures ReadItems(s + t, n) == Extended(ReadItems(s, n), t)
    decreases |s|, 2
  {
    if n > 0 {
      var first := FirstItemLocal(s, n, t);
      if first.Got? {
        ReadItemsLocal(first.rest, n - 1, t);
        ExtendPrefixed(first.value, ReadItems(first.rest, n - 1), t);
      }
    }
  }

  lemma {:induction false} FirstItemLocal(s: Bytes, n: nat, t: Bytes) returns (first: Outcome<RespValue>)
    requires n > 0 && !ReadItems(s, n).Broken?
    ensures !first.Broken? && |first.rest| < |s|
    ensures first.ServerError? ==>
      && ReadItems(s, n) == ServerError(first.text, first.rest)
      && ReadItems(s + t, n) == ServerError(first.text, first.rest + t)
    ensures first.Got? ==>
      && ReadItems(s, n) == Prefixed([first.value], ReadItems(first.rest, n - 1))
      && ReadItems(s + t, n) == Prefixed([first.value], ReadItems(first.rest + t, n - 1))
    decreases |s|, 1
  {
    first := ReadReply(s);
    ReadReplyLocal(s, t);
  }

  lemma ExtendPrefixed(item: RespValue, o: Outcome<seq<RespValue>>, t: Bytes)
    ensures Prefixed([item], Extended(o, t)) == Extended(Prefixed([item], o), t)
  {
  }

  lemma LaterBytesAreLeft(s: Bytes, t: Bytes)
    ensures !ReadReply(s).Broken? ==> !ReadReply(s + t).Broken? && |ReadReply(s + t).rest| >= |t|
  {
    if !ReadReply(s).Broken? { ReadReplyLocal(s, t); }
  }

  // ----- where an error inside a reply leaves the stream -----

  predicate Clean(w: Wire) {
    match w
    case WError(_) => false
    case WArray(items) => forall i :: 0 <= i < |items| ==> Clean(items[i])
    case _ => true
  }

  predicate AllClean(ws: seq<Wire>) {
    forall i :: 0 <= i < |ws| ==> Clean(ws[i])
  }

  /** The only error is the very last leaf of the reply. */
  predicate EndsInError(w: Wire) {
    match w
    case WError(_) => true
    case WArray(items) => LastEndsInError(items)
    case _ => false
  }

  predicate LastEndsInError(ws: seq<Wire>) {
    ws != [] && if |ws| == 1 then EndsInError(ws[0]) else Clean(ws[0]) && LastEndsInError(ws[1..])
  }

  lemma EncodeNonEmpty(w: Wire)
    ensures |Encode(w)| > 0
  {
  }

  lemma {:induction false} WhereItStops(w: Wire, t: Bytes)
    ensures Meaning(w, t).Got? <==> Clean(w)
    ensures |Meaning(w, t).rest| >= |t|
    ensures |Meaning(w, t).rest| == |t| <==> Clean(w) || EndsInError(w)
    ensures |Meaning(w, t).rest| == |t| ==> Meaning(w, t).rest == t
  {
    if w.WArray? { WhereItemsStop(w.items, t); }
  }

  lemma {:induction false} WhereItemsStop(ws: seq<Wire>, t: Bytes)
    ensures MeaningAll(ws, t).Got? <==> AllClean(ws)
    ensures |MeaningAll(ws, t).rest| >= |t|
    ensures |MeaningAll(ws, t).rest| == |t| <==> AllClean(ws) || LastEndsInError(ws)
    ensures |MeaningAll(ws, t).rest| == |t| ==> MeaningAll(ws, t).rest == t
  {
    if ws != [] {
      var after := EncodeAll(ws[1..]) + t;
      WhereItStops(ws[0], after);
      WhereItemsStop(ws[1..], t);
      assert AllClean(ws) <==> Clean(ws[0]) && AllClean(ws[1..]) by {
        assert forall i :: 0 <= i < |ws[1..]| ==> ws[1..][i] == ws[i + 1];
        if Clean(ws[0]) && AllClean(ws[1..]) {
          forall i | 0 <= i < |ws| ensures Clean(ws[i]) { if i > 0 { assert Clean(ws[1..][i - 1]); } }
        }
      }
      if |ws| > 1 { EncodeNonEmpty(ws[1]); } else { assert after == t; }
    }
  }

  /** After reading a well-formed reply the stream stands at the next reply if and only if the reply holds no error,
      or its one error is its last leaf; an earlier error inside an array leaves the later items to be misread as
      replies. */
  lemma InSyncIff(w: Wire, t: Bytes)
    requires WellFormed(w)
    ensures !ReadReply(Encode(w) + t).Broken?
    ensures ReadReply(Encode(w) + t).rest == t <==> Clean(w) || EndsInError(w)
    ensures ReadReply(Encode(w) + t).Got? <==> Clean(w)
  {
    ReaderIsExact(w, t);
    WhereItStops(w, t);
  }

  lemma ErrorThenOne(one: Wire, t: Bytes)
    ensures Encode(WArray([WError("e"), one])) == "*2\r\n-e\r\n" + Encode(one)
    ensures Meaning(WArray([WError("e"), one]), t) == ServerError("e", Encode(one) + t)
  {
    OneItem(one);
    var items := [WError("e"), one];
    assert items[1..] == [one];
    assert MeaningAll(items, t) == ServerError("e", Encode(one) + t);
    assert Itoa(2) == "2" && Encode(items[0]) == "-e\r\n";
    assert EncodeAll(items) == "-e\r\n" + Encode(one);
    assert Encode(WArray(items)) == "*" + ("2" + Crlf + ("-e\r\n" + Encode(one)));
  }

  /** The shortest kind of stream that desynchronises the reader: the error is reported, and the next call answers
      with the left-over integer of the same reply instead of the reply that follows. */
  lemma DesyncExample(next: Bytes)
    ensures ReadReply("*2\r\n-e\r\n:1\r\n" + next) == ServerError("e", ":1\r\n" + next)
    ensures ReadReply(":1\r\n" + next) == Got(Integer("1"), next)
  {
    var one := WInteger("1");
    assert Encode(one) == ":1\r\n";
    ErrorThenOne(one, next);
    assert "*2\r\n-e\r\n:1\r\n" == "*2\r\n-e\r\n" + ":1\r\n";
    ReaderIsExact(WArray([WError("e"), one]), next);
    ReaderIsExact(one, next);
  }

  lemma OneItem(w: Wire)
    ensures EncodeAll([w]) == Encode(w)
  {
    assert [w][1..] == [];
    assert Encode(w) + "" == Encode(w);
  }

  // ----- prefix-freeness -----

  lemma LineUsed(s: Bytes) returns (p: Bytes)
    requires ReadLine(s).Got?
    ensures s == p + ReadLine(s).rest && ReadLine(p) == Got(ReadLine(s).value, "")
  {
    var i := LineEnd(s);
    p := s[..i + 1];
    assert p[..i] == s[..i] && p[i] == s[i];
  }

  lemma LengthUsed(s: Bytes) returns (p: Bytes)
    requires ReadLength(s).Got?
    ensures s == p + ReadLength(s).rest && ReadLength(p) == Got(ReadLength(s).value, "")
  {
    p := LineUsed(s);
  }

  lemma BulkOf(s: Bytes, n: nat, body: Bytes)
    requires ReadLength(s) == Got(n, body) && n + 2 <= MaxAlloc && |body| >= n + 2
    ensures ReadBulk(s) == Got(Bulk(body[..n]), body[n + 2..])
  {
  }

  lemma LengthThen(p: Bytes, n: int, body: Bytes)
    requires ReadLength(p) == Got(n, "")
    ensures ReadLength(p + body) == Got(n, body)
  {
    ReadLengthLocal(p, body);
    assert "" + body == body;
  }

  lemma BulkThen(p: Bytes, n: nat, rest: Bytes)
    requires ReadLength(p) == Got(n, "") && n + 2 <= MaxAlloc && |rest| >= n + 2
    ensures ReadBulk(p + rest[..n + 2]) == Got(Bulk(rest[..n]), "")
    ensures p + rest == p + rest[..n + 2] + rest[n + 2..]
  {
    var body := rest[..n + 2];
    LengthThen(p, n, body);
    BulkOf(p + body, n, body);
    assert body[..n] == rest[..n] && body[n + 2..] == "";
    assert rest == body + rest[n + 2..];
  }

  lemma BulkUsed(s: Bytes) returns (p: Bytes)
    requires !ReadBulk(s).Broken?
    ensures ReadBulk(s).Got? && s == p + ReadBulk(s).rest && ReadBulk(p) == Got(ReadBulk(s).value, "")
  {
    p := LengthUsed(s);
    var n, rest := ReadLength(s).value, ReadLength(s).rest;
    if n >= 0 {
      BulkOf(s, n, rest);
      BulkThen(p, n, rest);
      p := p + rest[..n + 2];
    }
  }

  lemma Append(p: Bytes, body: Bytes, rest: Bytes)
    ensures p + (body + rest) == p + body + rest
  {
  }

  function Spent<T>(o: Outcome<T>): Outcome<T> {
    match o
    case Got(value, _) => Got(value, "")
    case ServerError(text, _) => ServerError(text, "")
    case Broken(why) => Broken(why)
  }

  /** A reply that was read can be read from the bytes it used alone. */
  lemma {:induction false} ReplyUsed(s: Bytes) returns (p: Bytes)
    requires !ReadReply(s).Broken?
    ensures s == p + ReadReply(s).rest && ReadReply(p) == Spent(ReadReply(s))
    decreases |s|, 0
  {
    var typed := TypedUsed(s[0], s[1..]);
    p := [s[0]] + typed;
    PrefixThen(s[0], typed);
    Append([s[0]], typed, ReadTyped(s[0], s[1..]).rest);
    FirstByte(s);
  }

  lemma FirstByte(s: Bytes)
    requires s != []
    ensures s == [s[0]] + s[1..] && ReadReply(s) == ReadTyped(s[0], s[1..])
  {
  }

  lemma PrefixThen(c: char, s: Bytes)
    ensures ReadReply([c] + s) == ReadTyped(c, s)
  {
    assert ([c] + s)[1..] == s;
  }

  lemma {:induction false} TypedUsed(prefix: char, s: Bytes) returns (p: Bytes)
    requires !ReadTyped(prefix, s).Broken?
    ensures s == p + ReadTyped(prefix, s).rest && ReadTyped(prefix, p) == Spent(ReadTyped(prefix, s))
    decreases |s|, 4
  {
    match prefix
    case '+' => p := LineUsed(s);
    case '-' => p := LineUsed(s);
    case ':' => p := LineUsed(s);
    case '$' => p := BulkUsed(s);
    case '*' => p := ArrayUsed(s);
    case _ =>
  }

  lemma {:induction false} ArrayUsed(s: Bytes) returns (p: Bytes)
    requires !ReadArray(s).Broken?
    ensures s == p + ReadArray(s).rest && ReadArray(p) == Spent(ReadArray(s))
    decreases |s|, 3
  {
    p := LengthUsed(s);
    var n, rest := ReadLength(s).value, ReadLength(s).rest;
    if 0 <= n <= MaxItems {
      ArrayOf(s, rest, n);
      var body := ItemsUsed(rest, n);
      LengthThen(p, n, body);
      ArrayOf(p + body, body, n);
      Append(p, body, ReadItems(rest, n).rest);
      p := p + body;
    }
  }

  lemma {:induction false} ItemsUsed(s: Bytes, n: nat) returns (p: Bytes)
    requires !ReadItems(s, n).Broken?
    ensures s == p + ReadItems(s, n).rest && ReadItems(p, n) == Spent(ReadItems(s, n))
    decreases |s|, 2
  {
    p := "";
    if n > 0 {
      var first;
      p, first := FirstUsed(s, n);
      if first.Got? {
        var more := ItemsUsed(first.rest, n - 1);
        FirstThenMore(p, n, first, more);
        p := p + more;
      }
    }
  }

  lemma {:induction false} FirstUsed(s: Bytes, n: nat) returns (p: Bytes, first: Outcome<RespValue>)
    requires n > 0 && !ReadItems(s, n).Broken?
    ensures !first.Broken? && s == p + first.rest && |first.rest| < |s| && ReadReply(p) == Spent(first)
    ensures first.ServerError? ==>
      ReadItems(s, n) == ServerError(first.text, first.rest) && ReadItems(p, n) == ServerError(first.text, "")
    ensures first.Got? ==> ReadItems(s, n) == Prefixed([first.value], ReadItems(first.rest, n - 1))
    decreases |s|, 1
  {
    first := ReadReply(s);
    p := ReplyUsed(s);
  }

  lemma FirstThenMore(p: Bytes, n: nat, first: Outcome<RespValue>, more: Bytes)
    requires n > 0 && first.Got? && ReadReply(p) == Spent(first)
    ensures ReadItems(p + more, n) == Prefixed([first.value], ReadItems(more, n - 1))
  {
    ReadReplyLocal(p, more);
    assert "" + more == more;
  }

  /** The read succeeded, or it ran out of bytes. */
  predicate Short<T>(o: Outcome<T>) {
    o.Broken? ==> o.why == UnexpectedEof
  }

  lemma LengthCut(p: Bytes, t: Bytes)
    requires ReadLength(p + t).Got?
    ensures Short(ReadLength(p))
  {
    if ReadLine(p).Got? { ReadLineLocal(p, t); }
  }

  lemma BulkCut(p: Bytes, t: Bytes)
    requires !ReadBulk(p + t).Broken?
    ensures Short(ReadBulk(p))
  {
    LengthCut(p, t);
    if ReadLength(p).Got? { ReadLengthLocal(p, t); }
  }

  /** A stream that begins like one that can be read fails, if at all, only for want of bytes. */
  lemma {:induction false} ReplyCut(p: Bytes, t: Bytes)
    requires !ReadReply(p + t).Broken?
    ensures Short(ReadReply(p))
    decreases |p|, 0
  {
    if p != [] {
      assert (p + t)[0] == p[0] && (p + t)[1..] == p[1..] + t;
      TypedCut(p[0], p[1..], t);
    }
  }

  lemma {:induction false} TypedCut(prefix: char, p: Bytes, t: Bytes)
    requires !ReadTyped(prefix, p + t).Broken?
    ensures Short(ReadTyped(prefix, p))
    decreases |p|, 4
  {
    match prefix
    case '$' => BulkCut(p, t);
    case '*' => ArrayCut(p, t);
    case _ =>
  }

  lemma {:induction false} ArrayCut(p: Bytes, t: Bytes)
    requires !ReadArray(p + t).Broken?
    ensures Short(ReadArray(p))
    decreases |p|, 3
  {
    LengthCut(p, t);
    if ReadLength(p).Got? {
      ReadLengthLocal(p, t);
      var n, rest := ReadLength(p).value, ReadLength(p).rest;
      if 0 <= n <= MaxItems {
        ArrayOf(p, rest, n);
        ArrayOf(p + t, rest + t, n);
        ItemsCut(rest, n, t);
      }
    }
  }

  lemma {:induction false} ItemsCut(p: Bytes, n: nat, t: Bytes)
    requires !ReadItems(p + t, n).Broken?
    ensures Short(ReadItems(p, n))
    decreases |p|, 2
  {
    if n > 0 {
      var first := FirstCut(p, n, t);
      if first.Got? { ItemsCut(first.rest, n - 1, t); }
    }
  }

  lemma {:induction false} FirstCut(p: Bytes, n: nat, t: Bytes) returns (first: Outcome<RespValue>)
    requires n > 0 && !ReadItems(p + t, n).Broken?
    ensures !first.Got? ==> Short(ReadItems(p, n))
    ensures first.Got? ==>
      && |first.rest| < |p| && ReadItems(p, n) == Prefixed([first.value], ReadItems(first.rest, n - 1))
      && !ReadItems(first.rest + t, n - 1).Broken?
    decreases |p|, 1
  {
    first := ReadReply(p);
    ReplyCut(p, t);
    if first.Got? { ReadReplyLocal(p, t); }
  }

  /** Every strict prefix of a reply is reported as an unexpected end of the stream, and never taken for a complete or a
      malformed reply, if and only if no error cuts an array of it short. */
  lemma PrefixFreeIff(w: Wire)
    requires WellFormed(w)
    ensures (forall k :: 0 <= k < |Encode(w)| ==> ReadReply(Encode(w)[..k]) == Broken(UnexpectedEof)) <==>
            Clean(w) || EndsInError(w)
  {
    var whole := Encode(w);
    assert whole + "" == whole;
    InSyncIff(w, "");
    if Clean(w) || EndsInError(w) {
      forall k | 0 <= k < |whole| ensures ReadReply(whole[..k]) == Broken(UnexpectedEof) {
        assert whole[..k] + whole[k..] == whole;
        LaterBytesAreLeft(whole[..k], whole[k..]);
        ReplyCut(whole[..k], whole[k..]);
      }
    } else {
      var p := ReplyUsed(whole);
      assert whole[..|p|] == p;
    }
  }

  /** A truncated command is always an unexpected end of the stream. */
  lemma PrefixFree(args: seq<Bytes>, k: nat)
    requires Sendable(args) && k < |EncodeCommand(args)|
    ensures ReadReply(EncodeCommand(args)[..k]) == Broken(UnexpectedEof)
  {
    CommandIsArray(args);
    PrefixFreeIff(WArray(Bulks(args)));
  }
}
