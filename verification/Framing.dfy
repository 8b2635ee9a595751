/**
  The readable half of the newline-delimited message stream: bytes arrive in arbitrary
  chunks, and what comes out must not depend on how they were cut.
 */
module Framing {
  import opened Prelude

  newtype byte = x: int | 0 <= x < 256

  const NEWLINE: byte := 10

  datatype Decoded<M> = Blank | Message(message: M) | Malformed

  datatype Error = TooLong | Unsupported

  datatype Outcome<M> = Closed(messages: seq<M>) | Failed(messages: seq<M>, error: Error)

  /** The first newline, as `Buffer.indexOf` finds it. */
  function IndexOf(bytes: seq<byte>): (i: int)
    ensures -1 <= i < |bytes|
    ensures i >= 0 ==> bytes[i] == NEWLINE && NEWLINE !in bytes[..i]
    ensures i < 0 <==> NEWLINE !in bytes
  {
    if bytes == [] then -1
    else if bytes[0] == NEWLINE then 0
    else
      var i := IndexOf(bytes[1..]);
      assert bytes == [bytes[0]] + bytes[1..];
      if i < 0 then -1
      else
        assert bytes[..i + 1] == [bytes[0]] + bytes[1..][..i];
        i + 1
  }

  // ---------------------------------------------------------------- the whole stream at once

  /** Splits at every newline; a rest without one is a last line unless it is empty. */
  function Lines(bytes: seq<byte>): seq<seq<byte>>
    decreases |bytes|
  {
    var i := IndexOf(bytes);
    if i < 0 then if bytes == [] then [] else [bytes]
    else [bytes[..i]] + Lines(bytes[i + 1..])
  }

  function Concat(parts: seq<seq<byte>>): seq<byte> {
    if parts == [] then [] else Concat(parts[..|parts| - 1]) + parts[|parts| - 1]
  }

  function Unlines(lines: seq<seq<byte>>): seq<byte> {
    if lines == [] then [] else lines[0] + [NEWLINE] + Unlines(lines[1..])
  }

  /** Decodes line by line until one is too long or malformed. */
  function DecodeLines<M>(lines: seq<seq<byte>>, max: nat, decode: seq<byte> -> Decoded<M>, acc: seq<M>): Outcome<M> {
    if lines == [] then Closed(acc)
    else if |lines[0]| > max then Failed(acc, TooLong)
    else
      match decode(lines[0])
      case Blank => DecodeLines(lines[1..], max, decode, acc)
      case Message(m) => DecodeLines(lines[1..], max, decode, acc + [m])
      case Malformed => Failed(acc, Unsupported)
  }

  lemma {:induction false} IndexIs(bytes: seq<byte>, k: nat)
    requires k < |bytes| && bytes[k] == NEWLINE && NEWLINE !in bytes[..k]
    ensures IndexOf(bytes) == k
  {
    if k > 0 {
      assert bytes[..k][0] != NEWLINE;
      assert bytes[1..][..k - 1] == bytes[..k][1..];
      IndexIs(bytes[1..], k - 1);
    }
  }

  predicate EndsLine(bytes: seq<byte>) {
    bytes == [] || bytes[|bytes| - 1] == NEWLINE
  }

  /** No line holds a newline. */
  lemma {:induction false} LinesHoldNoNewline(bytes: seq<byte>, line: seq<byte>)
    requires line in Lines(bytes)
    ensures forall k :: 0 <= k < |line| ==> line[k] != 10
    decreases |bytes|
  {
    var i := IndexOf(bytes);
    if i >= 0 && line != bytes[..i] {
      LinesHoldNoNewline(bytes[i + 1..], line);
    }
  }

  /** Splitting loses nothing: the lines, each ended by a newline, make up the bytes again. */
  lemma LinesAreExact(bytes: seq<byte>)
    ensures Unlines(Lines(bytes)) == if bytes == [] || bytes[|bytes| - 1] == 10 then bytes else bytes + [10]
  {
    Rejoined(bytes);
  }

  lemma {:induction false} Rejoined(bytes: seq<byte>)
    ensures Unlines(Lines(bytes)) == if EndsLine(bytes) then bytes else bytes + [NEWLINE]
    decreases |bytes|
  {
    hide Unlines;
    var i := IndexOf(bytes);
    if i >= 0 {
      var line, rest := bytes[..i], bytes[i + 1..];
      Rejoined(rest);
      assert Lines(bytes) == [line] + Lines(rest);
      hide Lines;
      UnlinesCons(line, Lines(rest));
      OneLineOff(bytes, line, rest);
    } else if bytes != [] {
      UnlinesCons(bytes, []);
      assert [bytes] + [] == [bytes];
      NoLines();
    } else {
      NoLines();
    }
  }

  lemma OneLineOff(bytes: seq<byte>, line: seq<byte>, rest: seq<byte>)
    requires |line| < |bytes| && bytes[..|line|] == line && bytes[|line|] == NEWLINE && bytes[|line| + 1..] == rest
    ensures bytes == line + [NEWLINE] + rest && EndsLine(bytes) == EndsLine(rest)
    ensures line + [NEWLINE] + (rest + [NEWLINE]) == bytes + [NEWLINE]
  {
  }

  lemma NoLines()
    ensures Unlines([]) == []
  {
  }

  lemma UnlinesCons(line: seq<byte>, lines: seq<seq<byte>>)
    ensures Unlines([line] + lines) == line + [NEWLINE] + Unlines(lines)
  {
    assert ([line] + lines)[1..] == lines;
  }

  /** The messages among the lines, in order. */
  function MessagesOf<M>(lines: seq<seq<byte>>, decode: seq<byte> -> Decoded<M>): seq<M> {
    if lines == [] then []
    else
      var n := |lines| - 1;
      match decode(lines[n])
      case Message(m) => MessagesOf(lines[..n], decode) + [m]
      case _ => MessagesOf(lines[..n], decode)
  }

  lemma {:induction false} DecodeUntil<M>(lines: seq<seq<byte>>, max: nat, decode: seq<byte> -> Decoded<M>, acc: seq<M>, k: nat)
    requires k <= |lines| && forall j :: 0 <= j < k ==> |lines[j]| <= max && !decode(lines[j]).Malformed?
    ensures DecodeLines(lines, max, decode, acc) == DecodeLines(lines[k..], max, decode, acc + MessagesOf(lines[..k], decode))
  {
    if k == 0 {
      assert lines[k..] == lines && acc + MessagesOf(lines[..k], decode) == acc;
    } else {
      DecodeUntil(lines, max, decode, acc, k - 1);
      assert lines[k - 1..][1..] == lines[k..] && lines[..k][..k - 1] == lines[..k - 1];
      var before := MessagesOf(lines[..k - 1], decode);
      if decode(lines[k - 1]).Message? {
        assert acc + before + [decode(lines[k - 1]).message] == acc + (before + [decode(lines[k - 1]).message]);
      }
    }
  }

  /**
    The outcome names the first line that is too long or malformed and has the messages before it;
    it has all messages when there is no such line. A line that is too long is not decoded.
   */
  lemma DecodeMeans<M>(lines: seq<seq<byte>>, max: nat, decode: seq<byte> -> Decoded<M>)
    ensures (forall j :: 0 <= j < |lines| ==> |lines[j]| <= max && !decode(lines[j]).Malformed?) ==>
              DecodeLines(lines, max, decode, []) == Closed(MessagesOf(lines, decode))
    ensures forall k :: 0 <= k < |lines| && (|lines[k]| > max || decode(lines[k]).Malformed?)
                        && (forall j :: 0 <= j < k ==> |lines[j]| <= max && !decode(lines[j]).Malformed?) ==>
              DecodeLines(lines, max, decode, [])
              == Failed(MessagesOf(lines[..k], decode), if |lines[k]| > max then TooLong else Unsupported)
  {
    if forall j :: 0 <= j < |lines| ==> |lines[j]| <= max && !decode(lines[j]).Malformed? {
      DecodeUntil(lines, max, decode, [], |lines|);
      assert lines[..|lines|] == lines && [] + MessagesOf(lines, decode) == MessagesOf(lines, decode);
    }
    forall k | 0 <= k < |lines| && (|lines[k]| > max || decode(lines[k]).Malformed?)
               && (forall j :: 0 <= j < k ==> |lines[j]| <= max && !decode(lines[j]).Malformed?)
      ensures DecodeLines(lines, max, decode, [])
              == Failed(MessagesOf(lines[..k], decode), if |lines[k]| > max then TooLong else Unsupported)
    {
      DecodeUntil(lines, max, decode, [], k);
      assert [] + MessagesOf(lines[..k], decode) == MessagesOf(lines[..k], decode);
    }
  }

  /** The message of a line stands after as many messages as lines before it hold one. */
  lemma {:induction false} MessagesInOrder<M>(lines: seq<seq<byte>>, decode: seq<byte> -> Decoded<M>, k: nat)
    requires k < |lines|
    ensures |MessagesOf(lines, decode)| == |set j | 0 <= j < |lines| && decode(lines[j]).Message?|
    ensures decode(lines[k]).Message? ==>
              var earlier := |set j | 0 <= j < k && decode(lines[j]).Message?|;
              earlier < |MessagesOf(lines, decode)| && MessagesOf(lines, decode)[earlier] == decode(lines[k]).message
  {
    var n := |lines| - 1;
    var front := lines[..n];
    assert (set j | 0 <= j < |lines| && decode(lines[j]).Message?)
        == (set j | 0 <= j < n && decode(front[j]).Message?) + if decode(lines[n]).Message? then {n} else {};
    if n == 0 {
      return;
    }
    MessagesInOrder(front, decode, if k < n then k else 0);
    if k < n {
      assert (set j | 0 <= j < k && decode(front[j]).Message?) == set j | 0 <= j < k && decode(lines[j]).Message?;
    } else {
      assert (set j | 0 <= j < n && decode(front[j]).Message?) == set j | 0 <= j < n && decode(lines[j]).Message?;
    }
  }

  // ---------------------------------------------------------------- one line at a time

  lemma FirstLine(line: seq<byte>, rest: seq<byte>)
    requires NEWLINE !in line
    ensures Lines(line + [NEWLINE] + rest) == [line] + Lines(rest)
  {
    var bytes := line + [NEWLINE] + rest;
    assert bytes[..|line|] == line && bytes[|line| + 1..] == rest;
    IndexIs(bytes, |line|);
  }

  /** A pending start of a line that is too long fails whatever follows. */
  lemma OverlongFails<M>(pending: seq<byte>, rest: seq<byte>, max: nat, decode: seq<byte> -> Decoded<M>, acc: seq<M>)
    requires NEWLINE !in pending && |pending| > max
    ensures DecodeLines(Lines(pending + rest), max, decode, acc) == Failed(acc, TooLong)
  {
    var bytes := pending + rest;
    var i := IndexOf(bytes);
    assert forall k :: 0 <= k < |pending| ==> bytes[k] == pending[k] && pending[k] in pending;
    assert |Lines(bytes)[0]| >= |pending|;
  }

  /** What reading `rest` next would come to. */
  ghost function Outlook<M>(
    failure: Option<Error>, pending: seq<byte>, messages: seq<M>, max: nat, decode: seq<byte> -> Decoded<M>,
    rest: seq<byte>): Outcome<M>
  {
    if failure.Some? then Failed(messages, failure.value)
    else DecodeLines(Lines(pending + rest), max, decode, messages)
  }

  /** The reader is where the whole stream would be after `consumed`, whatever comes next. */
  ghost predicate Faithful<M>(
    failure: Option<Error>, pending: seq<byte>, messages: seq<M>, max: nat, decode: seq<byte> -> Decoded<M>,
    consumed: seq<byte>)
  {
    forall rest :: Outlook(failure, pending, messages, max, decode, rest) ==
                   DecodeLines(Lines(consumed + rest), max, decode, [])
  }

  lemma AppendKeeps<M>(
    failure: Option<Error>, pending: seq<byte>, messages: seq<M>, max: nat, decode: seq<byte> -> Decoded<M>,
    consumed: seq<byte>, chunk: seq<byte>)
    requires Faithful(failure, pending, messages, max, decode, consumed)
    ensures Faithful(failure, pending + chunk, messages, max, decode, consumed + chunk)
    ensures failure.Some? ==> Faithful(failure, pending, messages, max, decode, consumed + chunk)
  {
    forall rest
      ensures Outlook(failure, pending + chunk, messages, max, decode, rest) ==
              DecodeLines(Lines(consumed + chunk + rest), max, decode, [])
    {
      assert pending + chunk + rest == pending + (chunk + rest);
      assert consumed + chunk + rest == consumed + (chunk + rest);
      assert Outlook(failure, pending, messages, max, decode, chunk + rest) ==
             DecodeLines(Lines(consumed + (chunk + rest)), max, decode, []);
    }
    if failure.Some? {
      forall rest
        ensures Outlook(failure, pending, messages, max, decode, rest) ==
                DecodeLines(Lines(consumed + chunk + rest), max, decode, [])
      {
        assert Outlook(failure, pending + chunk, messages, max, decode, rest) ==
               DecodeLines(Lines(consumed + chunk + rest), max, decode, []);
      }
    }
  }

  /** The outcome of decoding one line, as the failure and the messages after it. */
  function AfterLine<M>(line: seq<byte>, max: nat, decode: seq<byte> -> Decoded<M>, messages: seq<M>): (Option<Error>, seq<M>) {
    if |line| > max then (Some(TooLong), messages)
    else match decode(line)
      case Blank => (None, messages)
      case Message(m) => (None, messages + [m])
      case Malformed => (Some(Unsupported), messages)
  }

  lemma DecodeFirst<M>(line: seq<byte>, lines: seq<seq<byte>>, max: nat, decode: seq<byte> -> Decoded<M>, messages: seq<M>)
    ensures var (failure, messages') := AfterLine(line, max, decode, messages);
            DecodeLines([line] + lines, max, decode, messages) ==
              if failure.Some? then Failed(messages', failure.value) else DecodeLines(lines, max, decode, messages')
  {
    assert ([line] + lines)[1..] == lines;
  }

  lemma LineKeeps<M>(
    line: seq<byte>, after: seq<byte>, messages: seq<M>, max: nat, decode: seq<byte> -> Decoded<M>, consumed: seq<byte>)
    requires NEWLINE !in line && Faithful(None, line + [NEWLINE] + after, messages, max, decode, consumed)
    ensures var (failure, messages') := AfterLine(line, max, decode, messages);
            Faithful(failure, after, messages', max, decode, consumed)
  {
    var (failure, messages') := AfterLine(line, max, decode, messages);
    forall rest
      ensures Outlook(failure, after, messages', max, decode, rest) == DecodeLines(Lines(consumed + rest), max, decode, [])
    {
      assert Outlook(None, line + [NEWLINE] + after, messages, max, decode, rest) ==
             DecodeLines(Lines(consumed + rest), max, decode, []);
      assert line + [NEWLINE] + after + rest == line + [NEWLINE] + (after + rest);
      FirstLine(line, after + rest);
      DecodeFirst(line, Lines(after + rest), max, decode, messages);
    }
  }

  lemma OverlongKeeps<M>(
    pending: seq<byte>, messages: seq<M>, max: nat, decode: seq<byte> -> Decoded<M>, consumed: seq<byte>)
    requires NEWLINE !in pending && |pending| > max && Faithful(None, pending, messages, max, decode, consumed)
    ensures Faithful(Some(TooLong), pending, messages, max, decode, consumed)
  {
    forall rest
      ensures Outlook(Some(TooLong), pending, messages, max, decode, rest) ==
              DecodeLines(Lines(consumed + rest), max, decode, [])
    {
      OverlongFails(pending, rest, max, decode, messages);
      assert Outlook(None, pending, messages, max, decode, rest) == DecodeLines(Lines(consumed + rest), max, decode, []);
    }
  }

  /** At the end of the input a rest without newline is a last line. */
  lemma EndOfInput<M>(
    failure: Option<Error>, pending: seq<byte>, messages: seq<M>, max: nat, decode: seq<byte> -> Decoded<M>,
    consumed: seq<byte>)
    requires Faithful(failure, pending, messages, max, decode, consumed)
    requires failure == None ==> NEWLINE !in pending
    ensures var (failure', messages') :=
              if failure == None && pending != [] then AfterLine(pending, max, decode, messages) else (failure, messages);
            DecodeLines(Lines(consumed), max, decode, []) ==
              if failure'.Some? then Failed(messages', failure'.value) else Closed(messages')
  {
    assert consumed + [] == consumed && pending + [] == pending;
    assert Outlook(failure, pending, messages, max, decode, []) == DecodeLines(Lines(consumed + []), max, decode, []);
    if failure == None && pending != [] {
      assert Lines(pending) == [pending];
      DecodeFirst(pending, [], max, decode, messages);
      assert [pending] + [] == [pending];
    }
  }

  // ---------------------------------------------------------------- the reader

  class Reader<M> {
    const max: nat
    const decode: seq<byte> -> Decoded<M>
    var pending: seq<byte>
    var messages: seq<M>
    var failure: Option<Error>
    ghost var consumed: seq<byte>

    constructor (max: nat, decode: seq<byte> -> Decoded<M>)
      ensures Valid() && consumed == [] && failure == None && this.max == max && this.decode == decode
    {
      this.max := max;
      this.decode := decode;
      pending, messages, failure, consumed := [], [], None, [];
      new;
      forall rest: seq<byte> ensures [] + rest == rest {
      }
    }

    /** Between reads the buffer holds no newline and no more than one frame. */
    ghost predicate Valid()
      reads this
    {
      && Faithful(failure, pending, messages, max, decode, consumed)
      && (failure == None ==> NEWLINE !in pending && |pending| <= max)
    }

    /** Decodes one line into the stream, or fails it. */
    method Parse(line: seq<byte>)
      requires failure == None
      modifies this`messages, this`failure
      ensures (failure, messages) == AfterLine(line, max, decode, old(messages))
    {
      if |line| > max {
        failure := Some(TooLong);
        return;
      }
      match decode(line)
      case Blank =>
      case Message(m) => messages := messages + [m];
      case Malformed => failure := Some(Unsupported);
    }

    /** One chunk read from the input: take the complete lines, keep the rest. */
    method Feed(chunk: seq<byte>)
      requires Valid()
      modifies this
      ensures Valid()
      ensures consumed == old(consumed) + chunk
    {
      AppendKeeps(failure, pending, messages, max, decode, consumed, chunk);
      consumed := consumed + chunk;
      if failure.Some? {
        return;
      }
      if chunk == [] {
        assert pending + chunk == pending;
        return;
      }
      pending := pending + chunk;
      while IndexOf(pending) >= 0
        invariant failure == None && consumed == old(consumed) + chunk
        invariant Faithful(failure, pending, messages, max, decode, consumed)
        decreases |pending|
      {
        var newline := IndexOf(pending);
        var line, after := pending[..newline], pending[newline + 1..];
        assert pending == line + [NEWLINE] + after;
        LineKeeps(line, after, messages, max, decode, consumed);
        Parse(line);
        pending := after;
        if failure.Some? {
          return;
        }
      }
      if |pending| > max {
        OverlongKeeps(pending, messages, max, decode, consumed);
        failure := Some(TooLong);
      }
    }

    /** The input is done: a last line without newline, then close. */
    method Finish() returns (o: Outcome<M>)
      requires Valid()
      modifies this`messages, this`failure
      ensures o == DecodeLines(Lines(consumed), max, decode, [])
    {
      EndOfInput(failure, pending, messages, max, decode, consumed);
      if failure == None && |pending| > 0 {
        Parse(pending);
      }
      o := if failure.Some? then Failed(messages, failure.value) else Closed(messages);
    }
  }

  lemma {:induction false} ConcatSplits(parts: seq<seq<byte>>, i: nat)
    requires i <= |parts|
    ensures Concat(parts) == Concat(parts[..i]) + Concat(parts[i..])
  {
    if i == |parts| {
      assert parts[..i] == parts && parts[i..] == [];
    } else {
      var front := parts[..|parts| - 1];
      ConcatSplits(front, i);
      assert front[..i] == parts[..i];
      assert parts[i..][..|parts| - i - 1] == front[i..];
    }
  }

  /** Reading in any chunks comes to the same as splitting the whole byte sequence at once. */
  method ReadStream<M>(chunks: seq<seq<byte>>, max: nat, decode: seq<byte> -> Decoded<M>) returns (o: Outcome<M>)
    ensures o == DecodeLines(Lines(Concat(chunks)), max, decode, [])
  {
    hide Faithful, DecodeLines, Lines;
    var reader := new Reader(max, decode);
    for i := 0 to |chunks|
      invariant fresh(reader) && reader.Valid() && reader.consumed == Concat(chunks[..i])
      invariant reader.max == max && reader.decode == decode && reader.failure == None
    {
      reader.Feed(chunks[i]);
      assert chunks[..i + 1][..i] == chunks[..i];
      if reader.failure.Some? {
        ConcatSplits(chunks, i + 1);
        FailedForGood(reader.failure, reader.pending, reader.messages, max, decode, reader.consumed, Concat(chunks[i + 1..]));
        return Failed(reader.messages, reader.failure.value);
      }
    }
    assert chunks[..|chunks|] == chunks;
    o := reader.Finish();
  }

  lemma FailedForGood<M>(
    failure: Option<Error>, pending: seq<byte>, messages: seq<M>, max: nat, decode: seq<byte> -> Decoded<M>,
    consumed: seq<byte>, rest: seq<byte>)
    requires Faithful(failure, pending, messages, max, decode, consumed) && failure.Some?
    ensures DecodeLines(Lines(consumed + rest), max, decode, []) == Failed(messages, failure.value)
  {
    assert Outlook(failure, pending, messages, max, decode, rest) == DecodeLines(Lines(consumed + rest), max, decode, []);
  }
}
