/** The two bounded-memory readers of the event log in the command line client. */
module EventReaders {
  import opened Lines
  import opened Wrappers

  datatype Reason = OversizedRecord | InvalidUtf8

  /** What a reader hands on: a decoded line, or a gap that keeps only the record's length. */
  datatype Line = Text(text: string) | Gap(reason: Reason, recordBytes: nat)

  /** `limit` is the decoding budget; `decode` is strict UTF-8; `wanted` is the caller's filter. */
  datatype Reader = Reader(limit: nat, decode: seq<Byte> -> Option<string>, wanted: Line -> bool) {

    function DecodeEventLine(raw: seq<Byte>): Line {
      match decode(raw)
      case Some(text) => Text(text)
      case None => Gap(InvalidUtf8, |raw|)
    }

    /** What one whole record contributes: a record over the limit is a gap and bypasses the filter. */
    function Shown(record: seq<Byte>): seq<Line> {
      if |record| > limit then [Gap(OversizedRecord, |record|)]
      else if wanted(DecodeEventLine(record)) then [DecodeEventLine(record)] else []
    }

    function ShownAll(records: seq<seq<Byte>>): seq<Line> {
      if records == [] then [] else Shown(records[0]) + ShownAll(records[1..])
    }

    /** A record over the limit shows a gap with its length, whatever the filter; any other shows its text, or a gap
        with its length if it is not UTF-8, when the filter wants it. */
    lemma ShownIs(record: seq<Byte>)
      ensures |record| > limit ==> Shown(record) == [Gap(OversizedRecord, |record|)]
      ensures |record| <= limit && decode(record) == None ==>
                Shown(record) == if wanted(Gap(InvalidUtf8, |record|)) then [Gap(InvalidUtf8, |record|)] else []
      ensures forall text :: |record| <= limit && decode(record) == Some(text) ==>
                Shown(record) == if wanted(Text(text)) then [Text(text)] else []
    {}

    /** The tail reader drops empty segments. */
    function Tail(record: seq<Byte>): seq<Line> {
      if record == [] then [] else Shown(record)
    }

    function TailAll(records: seq<seq<Byte>>): (lines: seq<Line>)
      ensures |lines| <= |records|
    {
      if records == [] then [] else Tail(records[0]) + TailAll(records[1..])
    }

    lemma {:induction false} TailAllConcat(a: seq<seq<Byte>>, b: seq<seq<Byte>>)
      ensures TailAll(a + b) == TailAll(a) + TailAll(b)
    {
      if a == [] {
        assert a + b == b;
      } else {
        TailAllConcat(a[1..], b);
        assert (a + b)[1..] == a[1..] + b;
        ConcatAssoc(Tail(a[0]), TailAll(a[1..]), TailAll(b));
      }
    }

    lemma {:induction false} ShownAllAppend(a: seq<seq<Byte>>, record: seq<Byte>)
      ensures ShownAll(a + [record]) == ShownAll(a) + Shown(record)
    {
      if a == [] {
        assert a + [record] == [record];
      } else {
        ShownAllAppend(a[1..], record);
        assert (a + [record])[1..] == a[1..] + [record];
        ConcatAssoc(Shown(a[0]), ShownAll(a[1..]), Shown(record));
      }
    }

    /** The nested `accept`: `found` holds the newest line first and stops growing at `count`. */
    function Accept(found: seq<Line>, count: nat, raw: seq<Byte>, size: nat): seq<Line> {
      if size == 0 || |found| == count then found
      else
        var line := if size > limit then Gap(OversizedRecord, size) else DecodeEventLine(raw);
        if size > limit || wanted(line) then found + [line] else found
    }

    /** `lines` is what the records read so far contribute; `found` keeps the last `count` of them. */
    ghost predicate Keeps(found: seq<Line>, count: nat, lines: seq<Line>) {
      |found| <= count && Reversed(found) == LastN(lines, count)
    }

    lemma AcceptOlder(found: seq<Line>, count: nat, raw: seq<Byte>, record: seq<Byte>, lines: seq<Line>)
      requires Keeps(found, count, lines)
      requires |record| <= limit ==> raw == record
      ensures Keeps(Accept(found, count, raw, |record|), count, Tail(record) + lines)
    {
      ReversedLength(found);
      var line := if |record| > limit then Gap(OversizedRecord, |record|) else DecodeEventLine(raw);
      ReversedAppend(found, line);
    }

    /** The middle segments of one block, newest first. */
    method AcceptReversed(older: seq<Line>, count: nat, middle: seq<seq<Byte>>, ghost lines: seq<Line>)
      returns (found: seq<Line>)
      requires Keeps(older, count, lines)
      ensures Keeps(found, count, TailAll(middle) + lines)
    {
      found := older;
      var i := |middle|;
      assert TailAll(middle[i..]) + lines == lines;
      while i > 0
        invariant 0 <= i <= |middle|
        invariant Keeps(found, count, TailAll(middle[i..]) + lines)
      {
        i := i - 1;
        ghost var known := TailAll(middle[i + 1..]);
        AcceptOlder(found, count, middle[i], middle[i], known + lines);
        found := Accept(found, count, middle[i], |middle[i]|);
        assert middle[i..][1..] == middle[i + 1..];
        ConcatAssoc(Tail(middle[i]), known, lines);
      }
      assert middle[0..] == middle;
    }

    /** One block's segments: the last completes `record`, the first is a record only at the file's start. */
    method AcceptBlock(older: seq<Line>, count: nat, parts: seq<seq<Byte>>, raw: seq<Byte>, size: nat,
                       first: bool, ghost record: seq<Byte>, ghost lines: seq<Line>)
      returns (found: seq<Line>, carry: seq<Byte>)
      requires |parts| >= 1 && (|parts| == 1 ==> first)
      requires size == |record| && (size <= limit ==> raw == record)
      requires Keeps(older, count, lines)
      ensures carry == if first then [] else parts[0]
      ensures Keeps(found, count, TailAll(parts[if first then 0 else 1..|parts| - 1]) + (Tail(record) + lines))
    {
      AcceptOlder(older, count, raw, record, lines);
      found := Accept(older, count, raw, size);
      carry := [];
      if |parts| > 1 {
        var middle := parts[1..|parts| - 1];
        found := AcceptReversed(found, count, middle, Tail(record) + lines);
        if first {
          AcceptOlder(found, count, parts[0], parts[0], TailAll(middle) + (Tail(record) + lines));
          found := Accept(found, count, parts[0], |parts[0]|);
          assert parts[0..|parts| - 1][1..] == middle;
          ConcatAssoc(Tail(parts[0]), TailAll(middle), Tail(record) + lines);
        } else {
          carry := parts[0];
        }
      } else {
        assert parts[0..0] == [];
        assert TailAll([]) + (Tail(record) + lines) == Tail(record) + lines;
      }
    }

    /** The reader has enough lines, or stands at the file's start. */
    ghost predicate Enough(file: seq<Byte>, count: nat, position: nat)
      requires position <= |file|
    {
      position == 0 || |OfferedLines(file, position)| >= count
    }

    /** What is carried at a position: the bytes of the unfinished record, or nothing of one that is over the
        limit; and never more than the limit and the block allow. */
    ghost predicate CarryIs(file: seq<Byte>, block: nat, stop: Stop) {
      && stop.position <= |file| && |stop.carry| <= (if block <= limit then limit else block)
      && (stop.position > 0 ==>
            var open := Split(file[stop.position..], NEWLINE)[0];
            stop.carry == open || (stop.carry == [] && |open| > limit))
    }

    /** From one stop to the next there is one block, which is read because there was not enough. */
    ghost predicate Moves(file: seq<Byte>, count: nat, block: nat, from: Stop, to: Stop) {
      && from.position <= |file| && !Enough(file, count, from.position)
      && to.position == (if from.position > block then from.position - block else 0)
    }

    /** Where the reader stopped, from the file's end, and what it carried there. */
    ghost predicate Visits(file: seq<Byte>, count: nat, block: nat, stops: seq<Stop>) {
      && stops != [] && stops[0] == Stop(|file|, [])
      && (forall i :: 0 <= i < |stops| ==> CarryIs(file, block, stops[i]))
      && (forall i :: 0 < i < |stops| ==> Moves(file, count, block, stops[i - 1], stops[i]))
    }

    lemma VisitsMore(file: seq<Byte>, count: nat, block: nat, stops: seq<Stop>, next: Stop)
      requires Visits(file, count, block, stops) && CarryIs(file, block, next)
      requires Moves(file, count, block, stops[|stops| - 1], next)
      ensures Visits(file, count, block, stops + [next])
    {
      var more := stops + [next];
      forall i | 0 <= i < |more| ensures CarryIs(file, block, more[i]) {
        if i < |stops| { assert more[i] == stops[i]; }
      }
      forall i | 0 < i < |more| ensures Moves(file, count, block, more[i - 1], more[i]) {
        assert more[i - 1] == stops[i - 1];
        if i < |stops| { assert more[i] == stops[i]; }
      }
    }

    /** Between two blocks: what is found, and what is kept of the unfinished record. */
    ghost predicate Between(file: seq<Byte>, count: nat, block: nat, position: nat, found: seq<Line>,
                            carry: seq<Byte>, oversizedBytes: nat) {
      && position <= |file| && Keeps(found, count, OfferedLines(file, position))
      && (position > 0 ==> Carried(Split(file[position..], NEWLINE)[0], carry, oversizedBytes))
      && |carry| <= if block <= limit then limit else block
    }

    /** The last segment of a block joined with what is kept of the record that it begins. */
    lemma Joined(last: seq<Byte>, open: seq<Byte>, kept: seq<Byte>, length: nat)
      requires Carried(open, kept, length)
      ensures var size, raw := |last| + (if length != 0 then length else |kept|),
                               if length != 0 then [] else last + kept;
              && size == |last + open| && (size <= limit ==> raw == last + open)
              && Carried(last + open, if size <= limit then raw else [], if size > limit then size else 0)
    {}

    /** A block within one record adds to what is kept of it. */
    lemma SkipBlock(file: seq<Byte>, count: nat, block: nat, before: nat, step: nat, found: seq<Line>,
                    kept: seq<Byte>, length: nat)
      requires 0 < step < before && Between(file, count, block, before, found, kept, length)
      requires |Split(file[before - step..before], NEWLINE)| == 1
      ensures var last := Split(file[before - step..before], NEWLINE)[0];
              var size, raw := |last| + (if length != 0 then length else |kept|),
                               if length != 0 then [] else last + kept;
              Between(file, count, block, before - step, found,
                      if size <= limit then raw else [], if size > limit then size else 0)
    {
      BlockLines(file, before, step);
      Joined(Split(file[before - step..before], NEWLINE)[0], Split(file[before..], NEWLINE)[0], kept, length);
    }

    /** A block that ends a record leaves its first segment. */
    lemma TakeBlock(file: seq<Byte>, count: nat, block: nat, before: nat, step: nat, found: seq<Line>,
                    carry: seq<Byte>)
      requires 0 < step <= before <= |file| && step <= block
      requires var parts := Split(file[before - step..before], NEWLINE);
               && (|parts| > 1 || step == before)
               && carry == (if step == before then [] else parts[0])
               && Keeps(found, count, TailAll(parts[if step == before then 0 else 1..|parts| - 1])
                    + (Tail(parts[|parts| - 1] + Split(file[before..], NEWLINE)[0]) + OfferedLines(file, before)))
      ensures Between(file, count, block, before - step, found, carry, 0)
    {
      BlockLines(file, before, step);
    }

    /** A block whose segments end the unfinished record, or that is the file's first. */
    method EndRecord(file: seq<Byte>, count: nat, block: nat, before: nat, step: nat, parts: seq<seq<Byte>>,
                     older: seq<Line>, kept: seq<Byte>, length: nat)
      returns (found: seq<Line>, carry: seq<Byte>)
      requires Between(file, count, block, before, older, kept, length) && 0 < step <= before && step <= block
      requires parts == Split(file[before - step..before], NEWLINE) && (|parts| > 1 || step == before)
      ensures Between(file, count, block, before - step, found, carry, 0)
    {
      ghost var open := Split(file[before..], NEWLINE)[0];
      var last := parts[|parts| - 1];
      Joined(last, open, kept, length);
      var size := |last| + if length != 0 then length else |kept|;
      var raw := if length != 0 then [] else last + kept;
      found, carry := AcceptBlock(older, count, parts, raw, size, step == before, last + open,
                                  OfferedLines(file, before));
      TakeBlock(file, count, block, before, step, found, carry);
    }

    /** One block of the backward loop. */
    method ReadBlock(file: seq<Byte>, count: nat, block: nat, before: nat, older: seq<Line>, kept: seq<Byte>,
                     length: nat)
      returns (position: nat, found: seq<Line>, carry: seq<Byte>, oversizedBytes: nat)
      requires block >= 1 && before > 0 && Between(file, count, block, before, older, kept, length)
      ensures position == Earlier(before, block)
      ensures Between(file, count, block, position, found, carry, oversizedBytes)
    {
      var step := if block < before then block else before;
      var parts := Split(file[before - step..before], NEWLINE);
      position := before - step;
      oversizedBytes := 0;
      if |parts| == 1 && position > 0 {
        SkipBlock(file, count, block, before, step, older, kept, length);
        var size := |parts[0]| + if length != 0 then length else |kept|;
        found := older;
        carry := if size > limit || length != 0 then [] else parts[0] + kept;
        oversizedBytes := if size > limit then size else 0;
      } else {
        found, carry := EndRecord(file, count, block, before, step, parts, older, kept, length);
      }
    }

    lemma CarriedIs(file: seq<Byte>, count: nat, block: nat, position: nat, found: seq<Line>, carry: seq<Byte>,
                    oversizedBytes: nat)
      requires Between(file, count, block, position, found, carry, oversizedBytes)
      ensures CarryIs(file, block, Stop(position, carry))
    {}

    /** The last `count` accepted records of the file, oldest first, read backwards in blocks. `stops` is where
        the reader stands after each block and what it carries; it reads no block once there is enough. */
    method LastMatchingLines(file: seq<Byte>, count: int, block: nat)
      returns (lines: seq<Line>, ghost stops: seq<Stop>)
      requires block >= 1
      ensures lines == LastN(TailAll(Split(file, NEWLINE)), if count <= 0 then 0 else count)
      ensures count <= 0 ==> stops == []
      ensures count > 0 ==>
                Visits(file, count, block, stops) && Enough(file, count, stops[|stops| - 1].position)
    {
      if count <= 0 {
        return [], [];
      }
      var position: nat := |file|;
      var found: seq<Line> := [];
      var carry: seq<Byte> := [];
      var oversizedBytes: nat := 0;
      assert file[position..] == [];
      CarriedIs(file, count, block, position, found, carry, oversizedBytes);
      stops := [Stop(position, carry)];
      while position > 0 && |found| < count
        invariant Between(file, count, block, position, found, carry, oversizedBytes)
        invariant Visits(file, count, block, stops) && stops[|stops| - 1].position == position
        decreases position
      {
        FewFound(file, position, count, found);
        position, found, carry, oversizedBytes := ReadBlock(file, count, block, position, found, carry, oversizedBytes);
        CarriedIs(file, count, block, position, found, carry, oversizedBytes);
        VisitsMore(file, count, block, stops, Stop(position, carry));
        stops := stops + [Stop(position, carry)];
      }
      KeptIsEnough(file, position, count, found);
      lines := Reversed(found);
    }

    lemma FewFound(file: seq<Byte>, position: nat, count: nat, found: seq<Line>)
      requires 0 < position <= |file| && Keeps(found, count, OfferedLines(file, position)) && |found| < count
      ensures !Enough(file, count, position)
    {
      ReversedLength(found);
    }

    /** The reader stops at the file's start or with as many lines as were asked for. */
    lemma KeptIsEnough(file: seq<Byte>, position: nat, count: nat, found: seq<Line>)
      requires position <= |file| && Keeps(found, count, OfferedLines(file, position))
      requires position == 0 || |found| >= count
      ensures Reversed(found) == LastN(TailAll(Split(file, NEWLINE)), count) && Enough(file, count, position)
    {
      ReversedLength(found);
      if position > 0 {
        LastOffered(file, position, count);
      }
    }

    /** What the records already offered contribute, when the bytes from `position` on have been read. */
    ghost function OfferedLines(file: seq<Byte>, position: nat): seq<Line>
      requires position <= |file|
    {
      if position == 0 then TailAll(Split(file, NEWLINE)) else TailAll(Split(file[position..], NEWLINE)[1..])
    }

    /** One block more: its segments come before the known ones, joined at the seam. */
    lemma BlockLines(file: seq<Byte>, position: nat, step: nat)
      requires 0 < step <= position <= |file|
      ensures var parts, after := Split(file[position - step..position], NEWLINE), Split(file[position..], NEWLINE);
              var whole, record := Split(file[position - step..], NEWLINE), parts[|parts| - 1] + after[0];
              && (|parts| == 1 && step < position ==> whole[0] == record)
              && (|parts| == 1 && step < position ==>
                  OfferedLines(file, position - step) == OfferedLines(file, position))
              && (|parts| > 1 ==> whole[0] == parts[0] && |parts[0]| <= step)
              && (|parts| > 1 || step == position ==>
                    OfferedLines(file, position - step)
                      == TailAll(parts[if step == position then 0 else 1..|parts| - 1])
                         + (Tail(record) + OfferedLines(file, position)))
    {
      var parts, after := Split(file[position - step..position], NEWLINE), Split(file[position..], NEWLINE);
      var whole, record := Split(file[position - step..], NEWLINE), parts[|parts| - 1] + after[0];
      BlockSplit(file, position, step);
      if |parts| > 1 || step == position {
        var i := if step == position then 0 else 1;
        SeamSlice(parts, record, after[1..], i);
        TailAllConcat(parts[i..|parts| - 1], [record] + after[1..]);
        assert file[0..] == file;
      } else {
        assert whole == [record] + after[1..];
      }
    }

    /** Records found among the last segments are the last records of the file. */
    lemma LastOffered(file: seq<Byte>, position: nat, count: nat)
      requires 0 < position <= |file|
      requires |LastN(OfferedLines(file, position), count)| == count
      ensures LastN(OfferedLines(file, position), count) == LastN(TailAll(Split(file, NEWLINE)), count)
    {
      BlockSplit(file, position, position);
      assert file[0..] == file;
      var whole, offered := Split(file, NEWLINE), Split(file[position..], NEWLINE)[1..];
      var older := whole[..|whole| - |offered|];
      assert whole == older + offered;
      TailAllConcat(older, offered);
      LastNSuffix(TailAll(older), TailAll(offered), count);
    }

    /** What the reader remembers of the record it has not finished: its bytes, or only its length. */
    ghost predicate Carried(record: seq<Byte>, carry: seq<Byte>, oversizedBytes: nat) {
      if oversizedBytes == 0 then carry == record
      else carry == [] && oversizedBytes == |record| && |record| > limit
    }
  }

  /** Where the backward reader stands between two blocks, and what it carries there. */
  datatype Stop = Stop(position: nat, carry: seq<Byte>)

  function Earlier(position: nat, block: nat): nat {
    if block < position then position - block else 0
  }

  lemma SeamSlice<T>(parts: seq<T>, record: T, tail: seq<T>, i: nat)
    requires |parts| >= 1 && i <= |parts| - 1
    ensures (parts[..|parts| - 1] + [record] + tail)[i..] == parts[i..|parts| - 1] + ([record] + tail)
    ensures ([record] + tail)[1..] == tail
  {}

  lemma BlockSplit(file: seq<Byte>, position: nat, step: nat)
    requires step <= position <= |file|
    ensures var parts, after := Split(file[position - step..position], NEWLINE), Split(file[position..], NEWLINE);
            && Split(file[position - step..], NEWLINE)
               == parts[..|parts| - 1] + [parts[|parts| - 1] + after[0]] + after[1..]
            && forall i :: 0 <= i < |parts| ==> |parts[i]| <= step
  {
    var text := file[position - step..position];
    SplitConcat(text, file[position..], NEWLINE);
    assert text + file[position..] == file[position - step..];
    SplitLength(text, NEWLINE);
  }

  function Reversed<T>(s: seq<T>): seq<T> {
    if s == [] then [] else Reversed(s[1..]) + [s[0]]
  }

  lemma {:induction false} ReversedLength<T>(s: seq<T>)
    ensures |Reversed(s)| == |s|
  {
    if s != [] {
      ReversedLength(s[1..]);
    }
  }

  lemma {:induction false} ReversedAppend<T>(s: seq<T>, x: T)
    ensures Reversed(s + [x]) == [x] + Reversed(s)
  {
    if s == [] {
      assert [x][1..] == [];
    } else {
      ReversedAppend(s[1..], x);
      assert (s + [x])[1..] == s[1..] + [x];
    }
  }

  function LastN<T>(s: seq<T>, n: nat): seq<T> {
    if |s| <= n then s else s[|s| - n..]
  }

  lemma LastNSuffix<T>(a: seq<T>, b: seq<T>, n: nat)
    requires |LastN(b, n)| == n
    ensures LastN(a + b, n) == LastN(b, n)
  {}

  lemma {:induction false} SplitLength<T>(s: seq<T>, sep: T)
    ensures forall i :: 0 <= i < |Split(s, sep)| ==> |Split(s, sep)[i]| <= |s|
  {
    if s != [] {
      SplitLength(s[1..], sep);
    }
  }

  /** `bytes.splitlines(keepends=True)`: a part ends after LF, CR or CR LF, or at the end. */
  function SplitLines(chunk: seq<Byte>): (parts: seq<seq<Byte>>)
    ensures Flatten(parts) == chunk
    ensures forall i :: 0 <= i < |parts| ==> parts[i] != [] && NEWLINE !in parts[i][..|parts[i]| - 1]
    decreases |chunk|
  {
    if chunk == [] then []
    else
      var n := PartEnd(chunk);
      [chunk[..n]] + SplitLines(chunk[n..])
  }

  /** The length of the first part. */
  function PartEnd(chunk: seq<Byte>): (n: nat)
    requires chunk != []
    ensures 1 <= n <= |chunk| && NEWLINE !in chunk[..n - 1]
  {
    if chunk[0] == NEWLINE then 1
    else if chunk[0] == RETURN then if |chunk| > 1 && chunk[1] == NEWLINE then 2 else 1
    else if |chunk| == 1 then 1
    else
      var rest := PartEnd(chunk[1..]);
      assert chunk[..rest] == [chunk[0]] + chunk[1..][..rest - 1];
      1 + rest
  }

  /** The follow loop: what it keeps between reads of the growing log. */
  class Follower {
    const reader: Reader
    var pending: seq<Byte>
    var oversizedBytes: nat
    var shown: seq<Line>
    ghost var consumed: seq<Byte>

    /** Everything shown is the per-line result on all bytes read so far, and the bytes kept
        are the unterminated line itself, or only its length once it is over the limit. */
    ghost predicate Valid()
      reads this
    {
      var rest := Remainder(consumed, NEWLINE);
      && shown == reader.ShownAll(Terminated(consumed, NEWLINE))
      && pending == (if |rest| <= reader.limit then rest else [])
      && oversizedBytes == (if |rest| <= reader.limit then 0 else |rest|)
      && |pending| <= reader.limit
    }

    constructor (reader: Reader)
      ensures Valid() && this.reader == reader && consumed == [] && shown == []
    {
      this.reader := reader;
      pending, oversizedBytes, shown, consumed := [], 0, [], [];
    }

    /** Of a record over the limit only the length is kept, until it ends. */
    method CountOversized(part: seq<Byte>, ends: bool)
      requires part != []
      modifies `shown, `oversizedBytes
      ensures oversizedBytes == if ends then 0 else old(oversizedBytes) + |part|
      ensures shown == old(shown) + if ends then [Gap(OversizedRecord, |part| + old(oversizedBytes) - 1)] else []
    {
      oversizedBytes := oversizedBytes + |part|;
      if ends {
        shown := shown + [Gap(OversizedRecord, oversizedBytes - 1)];
        oversizedBytes := 0;
      }
    }

    /** One pass of the inner loop, over one part of a chunk. */
    method FeedPart(part: seq<Byte>)
      requires Valid() && part != [] && NEWLINE !in part[..|part| - 1]
      modifies this
      ensures Valid() && consumed == old(consumed) + part
    {
      ghost var lines := Terminated(consumed, NEWLINE);
      ghost var record := Remainder(consumed, NEWLINE) + part[..|part| - 1];
      SplitPart(consumed, part, NEWLINE);
      reader.ShownAllAppend(lines, record);
      var ends := part[|part| - 1] == NEWLINE;
      consumed := consumed + part;
      if oversizedBytes != 0 {
        CountOversized(part, ends);
        return;
      }
      var size := |pending| + |part| - if ends then 1 else 0;
      if size > reader.limit {
        pending := [];
        if ends {
          shown := shown + [Gap(OversizedRecord, size)];
        } else {
          oversizedBytes := size;
        }
        return;
      }
      pending := pending + part;
      if pending[|pending| - 1] == NEWLINE {
        assert pending[..|pending| - 1] == record;
        var line := reader.DecodeEventLine(pending[..|pending| - 1]);
        pending := [];
        if reader.wanted(line) {
          shown := shown + [line];
        }
      }
    }

    /** One chunk read from the log. */
    method FeedChunk(chunk: seq<Byte>)
      requires Valid()
      modifies this
      ensures Valid() && consumed == old(consumed) + chunk
    {
      var parts := SplitLines(chunk);
      var i := 0;
      while i < |parts|
        invariant 0 <= i <= |parts|
        invariant Valid() && consumed + Flatten(parts[i..]) == old(consumed) + chunk
      {
        ghost var before := consumed;
        FeedPart(parts[i]);
        i := i + 1;
        FlattenStep(before, parts, i - 1);
      }
      assert consumed + Flatten([]) == consumed;
    }
  }

  /** Following a log read in any division into chunks shows each terminated line once, as read whole. */
  method Follow(reader: Reader, chunks: seq<seq<Byte>>) returns (shown: seq<Line>)
    ensures shown == reader.ShownAll(Terminated(Flatten(chunks), NEWLINE))
  {
    var follower := new Follower(reader);
    var i := 0;
    while i < |chunks|
      invariant 0 <= i <= |chunks|
      invariant fresh(follower) && follower.reader == reader
      invariant follower.Valid() && follower.consumed + Flatten(chunks[i..]) == Flatten(chunks)
    {
      ghost var before := follower.consumed;
      follower.FeedChunk(chunks[i]);
      i := i + 1;
      FlattenStep(before, chunks, i - 1);
    }
    assert follower.consumed + Flatten([]) == follower.consumed;
    shown := follower.shown;
  }

  function NonEmpty(records: seq<seq<Byte>>): seq<seq<Byte>> {
    if records == [] then []
    else (if records[0] == [] then [] else [records[0]]) + NonEmpty(records[1..])
  }

  /** The two readers agree: a full tail is what following shows of the non-empty lines,
      and then the unterminated last line, which only the tail reader accepts. */
  lemma TailAgreesWithFollow(reader: Reader, file: seq<Byte>)
    ensures reader.TailAll(Split(file, NEWLINE))
         == reader.ShownAll(NonEmpty(Terminated(file, NEWLINE))) + reader.Tail(Remainder(file, NEWLINE))
  {
    var parts := Split(file, NEWLINE);
    assert parts == Terminated(file, NEWLINE) + [Remainder(file, NEWLINE)];
    reader.TailAllConcat(Terminated(file, NEWLINE), [Remainder(file, NEWLINE)]);
    TailAllNonEmpty(reader, Terminated(file, NEWLINE));
    assert [Remainder(file, NEWLINE)][1..] == [];
  }

  lemma {:induction false} TailAllNonEmpty(reader: Reader, records: seq<seq<Byte>>)
    ensures reader.TailAll(records) == reader.ShownAll(NonEmpty(records))
  {
    if records != [] {
      TailAllNonEmpty(reader, records[1..]);
      if records[0] == [] {
        assert NonEmpty(records) == NonEmpty(records[1..]);
      } else {
        assert NonEmpty(records)[1..] == NonEmpty(records[1..]);
      }
    }
  }
}
