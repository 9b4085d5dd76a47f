/**
 * `util/FileProcessor`: reads a simulation file of comma-separated update
 * lines, keeps the valid ones (trimmed, in file order) in a FIFO queue and
 * hands them out one at a time, counting what it loaded and handed out.
 * Opening and reading the file are not modelled: the file arrives as its
 * sequence of lines, or as nothing when it cannot be opened.
 */
module FileProcessing {
  import opened Optional
  import opened Text

  /** `validateUpdateLine`: not blank, at least three comma-separated fields,
      the first two not blank once trimmed and the third, trimmed, a `Long`. */
  function ValidateUpdateLine(line: string): bool {
    if IsBlank(line) then false
    else
      var parts := Split(line, ',');
      if |parts| < 3 then false
      else
        var updateType := Trim(parts[0]);
        var shipmentId := Trim(parts[1]);
        var timestamp := Trim(parts[2]);
        !IsBlank(updateType) && !IsBlank(shipmentId) && ParseLong(timestamp).Some?
  }

  /** The first field of a split is where the string starts. */
  lemma FirstFieldIsPrefix(line: string)
    ensures var parts := Split(line, ',');
      |parts[0]| <= |line| && line[..|parts[0]|] == parts[0]
  {
    var parts := Split(line, ',');
    JoinSplit(line, ',');
    if |parts| > 1 {
      assert Join(parts, ',') == parts[0] + ([','] + Join(parts[1..], ','));
    }
  }

  /** The whole rule, with no separate blank-line test: the blank test is
      implied by a non-blank first field. */
  lemma ValidateUpdateLineFields(line: string)
    ensures ValidateUpdateLine(line) <==>
      var parts := Split(line, ',');
      && |parts| >= 3
      && !IsBlank(parts[0]) && !IsBlank(parts[1])
      && ParseLong(Trim(parts[2])).Some?
  {
    var parts := Split(line, ',');
    TrimKeepsBlankness(parts[0]);
    if |parts| >= 2 {
      TrimKeepsBlankness(parts[1]);
    }
    if !IsBlank(parts[0]) {
      FirstFieldIsPrefix(line);
      var i :| 0 <= i < |parts[0]| && !IsWhitespace(parts[0][i]);
      assert line[i] == parts[0][i];
    }
  }

  /** A decimal `Long` has no comma and no surrounding whitespace. */
  lemma ShowIntIsTrimmed(n: int)
    ensures ',' !in ShowInt(n)
    ensures Trim(ShowInt(n)) == ShowInt(n)
  {
    var s := ShowInt(n);
    var digits := if n < 0 then ShowNat(-n) else ShowNat(n);
    assert IsDigit(digits[|digits| - 1]);
    if n < 0 {
      assert s == "-" + digits;
      assert s[|s| - 1] == digits[|digits| - 1];
    } else {
      assert IsDigit(digits[0]);
    }
    TrimOfUnpadded(s);
  }

  /** For a line of exactly three comma-free fields, validity is decided
      by the fields alone: type and id not blank, timestamp a `Long` once
      trimmed. */
  lemma ThreeFieldLine(updateType: string, shipmentId: string, timestamp: string)
    requires ',' !in updateType && ',' !in shipmentId && ',' !in timestamp
    ensures ValidateUpdateLine(updateType + "," + shipmentId + "," + timestamp) <==>
      !IsBlank(updateType) && !IsBlank(shipmentId) && ParseLong(Trim(timestamp)).Some?
  {
    var parts := [updateType, shipmentId, timestamp];
    var line := updateType + "," + shipmentId + "," + timestamp;
    assert Join(parts, ',') == line by {
      assert parts[1..] == [shipmentId, timestamp];
      assert parts[1..][1..] == [timestamp];
      assert Join(parts[1..], ',') == shipmentId + [','] + timestamp;
      assert Join(parts, ',') == updateType + [','] + (shipmentId + [','] + timestamp);
    }
    SplitJoin(parts, ',');
    ValidateUpdateLineFields(line);
  }

  /** A line written as `type,id,timestamp` from a non-blank type and id
      without commas and any `Long` timestamp passes validation. */
  lemma BuiltLineIsValid(updateType: string, shipmentId: string, timestamp: int)
    requires ',' !in updateType && ',' !in shipmentId
    requires !IsBlank(updateType) && !IsBlank(shipmentId) && IsLong(timestamp)
    ensures ValidateUpdateLine(updateType + "," + shipmentId + "," + ShowInt(timestamp))
  {
    ShowIntIsTrimmed(timestamp);
    ParseShowRoundTrip(timestamp);
    ThreeFieldLine(updateType, shipmentId, ShowInt(timestamp));
  }

  /** An empty line, a line with one field and a line with two fields are
      rejected. */
  lemma RejectedShapes()
    ensures !ValidateUpdateLine("")
    ensures !ValidateUpdateLine("INVALID")
    ensures !ValidateUpdateLine("CREATED,")
  {
    assert Join(["INVALID"], ',') == "INVALID";
    SplitJoin(["INVALID"], ',');
    assert Join(["CREATED", ""], ',') == "CREATED,";
    SplitJoin(["CREATED", ""], ',');
  }

  /** A non-numeric timestamp is rejected: the test's line "CREATED,123,abc". */
  lemma NonNumericTimestamp()
    ensures !ValidateUpdateLine("CREATED" + "," + "123" + "," + "abc")
  {
    var ts := "abc";
    ThreeFieldLine("CREATED", "123", ts);
    TrimOfUnpadded(ts);
    assert !IsDigit(ts[0]);
  }

  /** The queue built from a file's lines by a line filter: each line the
      filter keeps, trimmed, in file order. `loadAllUpdates` filters with
      `ValidateUpdateLine`. */
  function Enqueued(lines: seq<string>, keep: string -> bool): (queue: seq<string>)
    ensures |queue| <= |lines|
  {
    if lines == [] then []
    else
      var last := lines[|lines| - 1];
      Enqueued(lines[..|lines| - 1], keep) + (if keep(last) then [Trim(last)] else [])
  }

  /** Filtering works line by line: the lines of two files read one after the
      other give the two queues one after the other. */
  lemma {:induction false} EnqueuedAppend(a: seq<string>, b: seq<string>, keep: string -> bool)
    ensures Enqueued(a + b, keep) == Enqueued(a, keep) + Enqueued(b, keep)
    decreases |b|
  {
    if b == [] {
      assert a + b == a;
    } else {
      var b' := b[..|b| - 1];
      EnqueuedAppend(a, b', keep);
      assert (a + b)[..|a + b| - 1] == a + b';
      assert (a + b)[|a + b| - 1] == b[|b| - 1];
    }
  }

  /** A queued entry is exactly the trimmed form of a line the filter keeps. */
  lemma {:induction false} EnqueuedMembers(lines: seq<string>, keep: string -> bool, x: string)
    ensures x in Enqueued(lines, keep) <==>
      exists i :: 0 <= i < |lines| && keep(lines[i]) && x == Trim(lines[i])
    decreases |lines|
  {
    if lines != [] {
      var n := |lines| - 1;
      var init := lines[..n];
      var last := lines[n];
      EnqueuedMembers(init, keep, x);
      assert Enqueued(lines, keep) == Enqueued(init, keep) + (if keep(last) then [Trim(last)] else []);
      if x in Enqueued(lines, keep) {
        if x in Enqueued(init, keep) {
          var i :| 0 <= i < |init| && keep(init[i]) && x == Trim(init[i]);
          assert lines[i] == init[i];
        } else {
          assert keep(lines[n]) && x == Trim(lines[n]);
        }
      } else {
        forall i | 0 <= i < |lines| && keep(lines[i]) ensures x != Trim(lines[i]) {
          if i < n {
            assert lines[i] == init[i];
          }
        }
      }
    }
  }

  /** Every line `loadAllUpdates` queues came from a valid line of the file,
      and is trimmed and not blank. */
  lemma QueuedLinesAreValid(lines: seq<string>, x: string)
    requires x in Enqueued(lines, ValidateUpdateLine)
    ensures exists i :: 0 <= i < |lines| && ValidateUpdateLine(lines[i]) && x == Trim(lines[i])
    ensures Trim(x) == x && !IsBlank(x)
  {
    EnqueuedMembers(lines, ValidateUpdateLine, x);
    var i :| 0 <= i < |lines| && ValidateUpdateLine(lines[i]) && x == Trim(lines[i]);
    TrimIdempotent(lines[i]);
    TrimKeepsBlankness(lines[i]);
  }

  class FileProcessor {
    var fileName: string
    var updateQueue: seq<string>
    var currentLine: int
    var totalUpdates: int
    var processedUpdates: int

    /** The counters agree with the queue: everything loaded is either still
        queued or handed out, and the line counter counts the hand-outs. */
    ghost predicate Valid()
      reads this
    {
      && totalUpdates == |updateQueue| + processedUpdates
      && currentLine == processedUpdates
      && processedUpdates >= 0
    }

    constructor ()
      ensures Valid()
      ensures fileName == "" && updateQueue == [] && totalUpdates == 0
    {
      fileName := "";
      updateQueue := [];
      currentLine := 0;
      totalUpdates := 0;
      processedUpdates := 0;
    }

    /** `loadAllUpdates` over the file's lines: the queue becomes the valid
        lines, trimmed, in order, and `totalUpdates` their count. */
    method LoadAllUpdates(lines: seq<string>)
      modifies this
      ensures Valid()
      ensures updateQueue == Enqueued(lines, ValidateUpdateLine) && totalUpdates == |updateQueue|
      ensures currentLine == 0 && processedUpdates == 0 && fileName == old(fileName)
    {
      updateQueue := [];
      currentLine := 0;
      processedUpdates := 0;
      totalUpdates := 0;
      var i := 0;
      while i < |lines|
        invariant 0 <= i <= |lines|
        invariant updateQueue == Enqueued(lines[..i], ValidateUpdateLine)
        invariant totalUpdates == |updateQueue|
        invariant currentLine == 0 && processedUpdates == 0 && fileName == old(fileName)
      {
        var line := lines[i];
        if ValidateUpdateLine(line) {
          updateQueue := updateQueue + [Trim(line)];
          totalUpdates := totalUpdates + 1;
        }
        assert lines[..i + 1][..i] == lines[..i];
        i := i + 1;
      }
      assert lines[..i] == lines;
    }

    /** `loadFile`: the name is recorded first; a file that cannot be opened
        (`contents` is None) yields false and leaves the queue and counters as
        they were; otherwise its lines are loaded and the result is true. */
    method LoadFile(name: string, contents: Option<seq<string>>) returns (loaded: bool)
      requires Valid()
      modifies this
      ensures Valid() && fileName == name
      ensures loaded <==> contents.Some?
      ensures loaded ==>
        updateQueue == Enqueued(contents.value, ValidateUpdateLine) && totalUpdates == |updateQueue| && processedUpdates == 0
      ensures !loaded ==>
        updateQueue == old(updateQueue) && totalUpdates == old(totalUpdates) && processedUpdates == old(processedUpdates)
    {
      fileName := name;
      if contents.None? {
        return false;
      }
      LoadAllUpdates(contents.value);
      return true;
    }

    /** `getNextUpdate`: the oldest queued line, which leaves the queue, and
        one more on each counter; nothing, and no change, when empty. */
    method GetNextUpdate() returns (next: Option<string>)
      requires Valid()
      modifies this
      ensures Valid() && fileName == old(fileName) && totalUpdates == old(totalUpdates)
      ensures old(updateQueue) == [] ==>
        && next == None && updateQueue == []
        && processedUpdates == old(processedUpdates) && currentLine == old(currentLine)
      ensures old(updateQueue) != [] ==>
        && next == Some(old(updateQueue)[0])
        && updateQueue == old(updateQueue)[1..]
        && processedUpdates == old(processedUpdates) + 1 && currentLine == old(currentLine) + 1
    {
      if updateQueue != [] {
        currentLine := currentLine + 1;
        processedUpdates := processedUpdates + 1;
        next := Some(updateQueue[0]);
        updateQueue := updateQueue[1..];
      } else {
        next := None;
      }
    }

    /** `hasMoreUpdates`: a line is still queued. */
    function HasMoreUpdates(): (more: bool)
      reads this
      ensures more <==> |updateQueue| > 0
    {
      updateQueue != []
    }

    /** `isEmpty`: the opposite of `hasMoreUpdates`. */
    function IsEmpty(): (empty: bool)
      reads this
      ensures empty <==> !HasMoreUpdates()
    {
      updateQueue == []
    }

    /** `reset`: no file, empty queue, all counters zero. */
    method Reset()
      modifies this
      ensures Valid()
      ensures updateQueue == [] && fileName == "" && currentLine == 0 && totalUpdates == 0 && processedUpdates == 0
    {
      updateQueue := [];
      fileName := "";
      currentLine := 0;
      totalUpdates := 0;
      processedUpdates := 0;
    }
  }

  /** Drains a processor the way the simulation does: `getNextUpdate` until it
      yields nothing. The lines come out in queue order and the processor
      ends empty with every loaded line counted as processed. */
  method DrainAll(p: FileProcessor) returns (out: seq<string>)
    requires p.Valid()
    modifies p
    ensures p.Valid() && out == old(p.updateQueue) && p.updateQueue == []
    ensures p.fileName == old(p.fileName) && p.totalUpdates == old(p.totalUpdates)
    ensures p.processedUpdates == p.totalUpdates
  {
    out := [];
    while p.HasMoreUpdates()
      invariant p.Valid()
      invariant p.fileName == old(p.fileName) && p.totalUpdates == old(p.totalUpdates)
      invariant out + p.updateQueue == old(p.updateQueue)
      decreases |p.updateQueue|
    {
      var next := p.GetNextUpdate();
      out := out + [next.value];
    }
  }
}
