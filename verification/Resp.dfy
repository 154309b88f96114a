/** worker/internal/store/resp.go: the RESP2 command printer and reply reader, over byte streams (one char per byte). */
module Resp {
  import opened Domain
  import opened Decimal

  type Bytes = string

  datatype RespValue =
    | Simple(text: Bytes)
    | Integer(text: Bytes)
    | Bulk(data: Bytes)
    | NullBulk
    | Array(items: seq<RespValue>)
    | NullArray

  /** The largest block that Go's allocator accepts on 64-bit Linux, and how many respValues (80 bytes each) it
      holds. */
  const MaxAlloc := 0x1_0000_0000_0000
  const MaxItems := MaxAlloc / 80

  /** Why a read left the connection unusable. A declared length below -1, or one that asks for a larger block than
      that, makes Go's `make` panic before anything more is read. */
  datatype Fault = UnexpectedEof | BadNumber | BadPrefix | Panic

  datatype Outcome<+T> =
    | Got(value: T, rest: Bytes)
    | ServerError(text: Bytes, rest: Bytes)
    | Broken(why: Fault)

  // ----- the reader as a function of the unread bytes -----

  /** The position of the first line feed, or the length if there is none. */
  function LineEnd(s: Bytes): (i: nat)
    ensures i <= |s| && (forall k :: 0 <= k < i ==> s[k] != '\n') && (i < |s| ==> s[i] == '\n')
  {
    if s == [] then 0 else if s[0] == '\n' then 0 else 1 + LineEnd(s[1..])
  }

  function TrimCr(s: Bytes): Bytes {
    if s != [] && s[|s| - 1] == '\r' then s[..|s| - 1] else s
  }

  function ReadLine(s: Bytes): (r: Outcome<Bytes>)
    ensures !r.ServerError? && (r.Got? ==> |r.rest| < |s|)
  {
    var i := LineEnd(s);
    if i == |s| then Broken(UnexpectedEof) else Got(TrimCr(s[..i]), s[i + 1..])
  }

  function ReadLength(s: Bytes): (r: Outcome<int>)
    ensures !r.ServerError? && (r.Got? ==> |r.rest| < |s|)
  {
    match ReadLine(s)
    case Broken(why) => Broken(why)
    case Got(line, rest) =>
      match Atoi(line)
      case None => Broken(BadNumber)
      case Some(n) => Got(n, rest)
  }

  /** What follows a `$`. */
  function ReadBulk(s: Bytes): (r: Outcome<RespValue>)
    ensures !r.Broken? ==> |r.rest| < |s|
  {
    match ReadLength(s)
    case Broken(why) => Broken(why)
    case Got(n, rest) =>
      if n == -1 then Got(NullBulk, rest)
      else if n < -1 || n + 2 > MaxAlloc then Broken(Panic)
      else if |rest| < n + 2 then Broken(UnexpectedEof)
      else Got(Bulk(rest[..n]), rest[n + 2..])
  }

  function ReadReply(s: Bytes): (r: Outcome<RespValue>)
    ensures !r.Broken? ==> |r.rest| < |s|
    decreases |s|, 0
  {
    if s == [] then Broken(UnexpectedEof) else ReadTyped(s[0], s[1..])
  }

  /** What follows the prefix byte. */
  function ReadTyped(prefix: char, s: Bytes): (r: Outcome<RespValue>)
    ensures !r.Broken? ==> |r.rest| < |s|
    decreases |s|, 3
  {
    match prefix
    case '+' =>
      (match ReadLine(s)
       case Broken(why) => Broken(why)
       case Got(line, rest) => Got(Simple(line), rest))
    case '-' =>
      (match ReadLine(s)
       case Broken(why) => Broken(why)
       case Got(line, rest) => ServerError(line, rest))
    case ':' =>
      (match ReadLine(s)
       case Broken(why) => Broken(why)
       case Got(line, rest) => Got(Integer(line), rest))
    case '$' => ReadBulk(s)
    case '*' => ReadArray(s)
    case _ => Broken(BadPrefix)
  }

  /** What follows a `*`. */
  function ReadArray(s: Bytes): (r: Outcome<RespValue>)
    ensures !r.Broken? ==> |r.rest| < |s|
    decreases |s|, 2
  {
    match ReadLength(s)
    case Broken(why) => Broken(why)
    case Got(n, rest) =>
      if n == -1 then Got(NullArray, rest)
      else if n < -1 || n > MaxItems then Broken(Panic)
      else match ReadItems(rest, n)
        case Broken(why) => Broken(why)
        case ServerError(text, left) => ServerError(text, left)
        case Got(items, left) => Got(Array(items), left)
  }

  function ReadItems(s: Bytes, n: nat): (r: Outcome<seq<RespValue>>)
    ensures !r.Broken? ==> |r.rest| <= |s|
    ensures r.Got? ==> |r.value| == n
    decreases |s|, 1
  {
    if n == 0 then Got([], s)
    else match ReadReply(s)
      case Broken(why) => Broken(why)
      case ServerError(text, rest) => ServerError(text, rest)
      case Got(item, rest) => Prefixed([item], ReadItems(rest, n - 1))
  }

  function Prefixed(items: seq<RespValue>, o: Outcome<seq<RespValue>>): (r: Outcome<seq<RespValue>>)
    ensures r.Got? <==> o.Got?
  {
    if o.Got? then Got(items + o.value, o.rest) else o
  }

  // ----- the reader as the code: methods that advance a stream -----

  class Reader {
    var rest: Bytes

    constructor (input: Bytes)
      ensures rest == input
    {
      rest := input;
    }

    method ReadByte() returns (b: Option<char>)
      modifies this
      ensures if old(rest) == [] then b == None && rest == [] else b == Some(old(rest)[0]) && rest == old(rest)[1..]
    {
      if rest == [] {
        return None;
      }
      b := Some(rest[0]);
      rest := rest[1..];
    }

    method NextLine() returns (line: Outcome<Bytes>)
      modifies this
      ensures line == ReadLine(old(rest))
      ensures rest == if line.Got? then line.rest else []
    {
      var i := 0;
      while i < |rest| && rest[i] != '\n'
        invariant i <= LineEnd(rest)
      {
        i := i + 1;
      }
      if i == |rest| {
        rest := [];
        return Broken(UnexpectedEof);
      }
      line := Got(TrimCr(rest[..i]), rest[i + 1..]);
      rest := rest[i + 1..];
    }

    method ReadFull(buffer: array<char>) returns (ok: bool)
      modifies this, buffer
      ensures ok == (|old(rest)| >= buffer.Length)
      ensures rest == if ok then old(rest)[buffer.Length..] else []
      ensures ok ==> buffer[..] == old(rest)[..buffer.Length]
    {
      if |rest| < buffer.Length {
        rest := [];
        return false;
      }
      forall i | 0 <= i < buffer.Length {
        buffer[i] := rest[i];
      }
      rest := rest[buffer.Length..];
      return true;
    }

    method NextReply() returns (reply: Outcome<RespValue>)
      modifies this
      ensures reply == ReadReply(old(rest))
      ensures !reply.Broken? ==> rest == reply.rest
      ensures |rest| <= |old(rest)|
      decreases |rest|, 0
    {
      var prefix := ReadByte();
      if prefix.None? {
        return Broken(UnexpectedEof);
      }
      match prefix.value {
        case '+' =>
          var line := NextLine();
          if line.Broken? { return Broken(line.why); }
          return Got(Simple(line.value), rest);
        case '-' =>
          var line := NextLine();
          if line.Broken? { return Broken(line.why); }
          return ServerError(line.value, rest);
        case ':' =>
          var line := NextLine();
          if line.Broken? { return Broken(line.why); }
          return Got(Integer(line.value), rest);
        case '$' => reply := NextBulk();
        case '*' => reply := NextArray();
        case _ => return Broken(BadPrefix);
      }
    }

    /** The `$` case of readReply. */
    method NextBulk() returns (reply: Outcome<RespValue>)
      modifies this
      ensures reply == ReadBulk(old(rest))
      ensures !reply.Broken? ==> rest == reply.rest
      ensures |rest| <= |old(rest)|
    {
      var line := NextLine();
      if line.Broken? { return Broken(line.why); }
      var length := Atoi(line.value);
      if length.None? { return Broken(BadNumber); }
      if length.value == -1 { return Got(NullBulk, rest); }
      if length.value < -1 || length.value + 2 > MaxAlloc { return Broken(Panic); }
      var buffer := new char[length.value + 2];
      ghost var body := rest;
      var ok := ReadFull(buffer);
      if !ok { return Broken(UnexpectedEof); }
      assert buffer[..length.value] == buffer[..][..length.value] == body[..length.value];
      return Got(Bulk(buffer[..length.value]), rest);
    }

    /** The `*` case of readReply. */
    method NextArray() returns (reply: Outcome<RespValue>)
      modifies this
      ensures reply == ReadArray(old(rest))
      ensures !reply.Broken? ==> rest == reply.rest
      ensures |rest| <= |old(rest)|
      decreases |rest|, 3
    {
      var line := NextLine();
      if line.Broken? { return Broken(line.why); }
      var length := Atoi(line.value);
      if length.None? { return Broken(BadNumber); }
      if length.value == -1 { return Got(NullArray, rest); }
      if length.value < -1 || length.value > MaxItems { return Broken(Panic); }
      var items := NextItems(length.value);
      if items.Broken? { return Broken(items.why); }
      if items.ServerError? { return ServerError(items.text, rest); }
      return Got(Array(items.value), rest);
    }

    /** The item loop of the `*` case. */
    method NextItems(length: nat) returns (all: Outcome<seq<RespValue>>)
      modifies this
      ensures all == ReadItems(old(rest), length)
      ensures !all.Broken? ==> rest == all.rest
      ensures |rest| <= |old(rest)|
      decreases |rest|, 2
    {
      ghost var goal := ReadItems(rest, length);
      var items := [];
      PrefixedNothing(goal);
      for i := 0 to length
        invariant |rest| <= |old(rest)|
        invariant goal == Prefixed(items, ReadItems(rest, length - i))
      {
        var item := NextItem(items, length - i, goal);
        if item.Broken? { return Broken(item.why); }
        if item.ServerError? { return ServerError(item.text, rest); }
        items := items + [item.value];
      }
      ItemsDone(items, rest);
      return Got(items, rest);
    }

    /** One iteration of it, with `left` items to go; `all` is what the loop will return. */
    method NextItem(ghost items: seq<RespValue>, ghost left: nat, ghost all: Outcome<seq<RespValue>>)
      returns (item: Outcome<RespValue>)
      requires left > 0 && all == Prefixed(items, ReadItems(rest, left))
      modifies this
      ensures item.Broken? ==> all == Broken(item.why)
      ensures item.ServerError? ==> all == ServerError(item.text, rest)
      ensures item.Got? ==> all == Prefixed(items + [item.value], ReadItems(rest, left - 1))
      ensures |rest| <= |old(rest)|
      decreases |rest|, 1
    {
      ItemStep(items, rest, left, all);
      item := NextReply();
    }
  }

  lemma PrefixedNothing(o: Outcome<seq<RespValue>>)
    ensures Prefixed([], o) == o
  {
    if o.Got? { assert [] + o.value == o.value; }
  }

  lemma ItemsDone(items: seq<RespValue>, s: Bytes)
    ensures Prefixed(items, ReadItems(s, 0)) == Got(items, s)
  {
    assert items + [] == items;
  }

  lemma ItemStep(items: seq<RespValue>, s: Bytes, n: nat, all: Outcome<seq<RespValue>>)
    requires n > 0 && all == Prefixed(items, ReadItems(s, n))
    ensures var reply := ReadReply(s);
      && (reply.Broken? ==> all == Broken(reply.why))
      && (reply.ServerError? ==> all == ServerError(reply.text, reply.rest))
      && (reply.Got? ==> all == Prefixed(items + [reply.value], ReadItems(reply.rest, n - 1)))
  {
    var reply := ReadReply(s);
    if reply.Got? {
      var o := ReadItems(reply.rest, n - 1);
      if o.Got? { assert items + ([reply.value] + o.value) == items + [reply.value] + o.value; }
    }
  }
}
