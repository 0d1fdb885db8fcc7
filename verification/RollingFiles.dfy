/** `rolling_file_sink`: messages go to numbered files, one after the other. */
module RollingFiles {
  import opened Options
  import opened FileNames

  const MOST_FILES: nat := 10000

  /** What is on the disk: the text of every file, by name. */
  type Files = map<string, string>

  datatype Config = Config(fname: string, maxFileSize: nat, maxFileNum: nat) {
    predicate Accepted() { maxFileSize != 0 && maxFileNum <= MOST_FILES }

    function Name(index: nat): string { RollingName(fname, index, maxFileNum) }

    function Last(): nat { if maxFileNum == 0 then 1 else maxFileNum }
  }

  // ----- what the sink should leave behind -----

  function Text(messages: seq<string>): string {
    if messages == [] then "" else Text(messages[..|messages| - 1]) + messages[|messages| - 1]
  }

  /** The messages in the files: one more goes into the current file if it fits, or if the file is empty. */
  function Pack(messages: seq<string>, max: nat): (segments: seq<seq<string>>)
    ensures segments != []
  {
    if messages == [] then [[]]
    else
      var segments, m := Pack(messages[..|messages| - 1], max), messages[|messages| - 1];
      var n := |segments| - 1;
      var size := |Text(segments[n])|;
      if size + |m| <= max || size == 0 then segments[..n] + [segments[n] + [m]] else segments + [[m]]
  }

  function Flatten(segments: seq<seq<string>>): seq<string> {
    if segments == [] then [] else Flatten(segments[..|segments| - 1]) + segments[|segments| - 1]
  }

  /** The first index from `i` whose name is free, or the last index. */
  function NextFree(c: Config, files: Files, i: nat): (j: nat)
    ensures i <= j && (i <= c.Last() ==> j <= c.Last())
    decreases c.maxFileNum - i
  {
    if i < c.maxFileNum && c.Name(i) in files then NextFree(c, files, i + 1) else i
  }

  /** The index of the k-th file, given what was on the disk at first. */
  function Slot(c: Config, files: Files, k: nat): (i: nat)
    ensures 1 <= i <= c.Last()
  {
    if k == 0 then NextFree(c, files, 1)
    else
      var i := Slot(c, files, k - 1);
      if i < c.maxFileNum then NextFree(c, files, i + 1) else i
  }

  /** The disk after the segments have been written, in order. */
  function Placed(c: Config, files: Files, segments: seq<seq<string>>): Files {
    if segments == [] then files
    else
      var n := |segments| - 1;
      Placed(c, files, segments[..n])[c.Name(Slot(c, files, n)) := Text(segments[n])]
  }

  // ----- how messages are packed -----

  lemma {:induction false} FlattenAppend(segments: seq<seq<string>>, last: seq<string>)
    ensures Flatten(segments + [last]) == Flatten(segments) + last
  {
    assert (segments + [last])[..|segments|] == segments;
  }

  /** The files hold all messages, in order, each in one piece. */
  lemma {:induction false} PackKeepsMessages(messages: seq<string>, max: nat)
    ensures Flatten(Pack(messages, max)) == messages
  {
    if messages == [] {
      assert Flatten([[]]) == Flatten([]) + [];
    } else {
      var front, m := messages[..|messages| - 1], messages[|messages| - 1];
      PackKeepsMessages(front, max);
      var segments := Pack(front, max);
      var n := |segments| - 1;
      FlattenAppend(segments[..n], segments[n]);
      FlattenAppend(segments[..n], segments[n] + [m]);
      FlattenAppend(segments, [m]);
      assert segments[..n] + [segments[n]] == segments;
      assert Flatten(segments[..n]) + (segments[n] + [m]) == Flatten(segments) + [m];
      assert front + [m] == messages;
    }
  }

  /** One message that is not empty, after some that are. */
  predicate OneMessage(segment: seq<string>) {
    segment != [] && Text(segment[..|segment| - 1]) == "" && segment[|segment| - 1] != ""
  }

  predicate FitsFile(segment: seq<string>, max: nat) { |Text(segment)| <= max || OneMessage(segment) }

  lemma TextAppend(segment: seq<string>, m: string)
    ensures Text(segment + [m]) == Text(segment) + m
  {
    assert (segment + [m])[..|segment|] == segment;
  }

  /** A file is closed only when the next message did not fit. */
  predicate CutBetween(a: seq<string>, b: seq<string>, max: nat) {
    b != [] && Text(a) != "" && |Text(a)| + |b[0]| > max
  }

  lemma TextOfOne(m: string)
    ensures Text([m]) == m
  {
    TextAppend([], m);
    assert [] + [m] == [m];
  }

  predicate Tight(segments: seq<seq<string>>, max: nat) {
    && (forall k :: 0 <= k < |segments| ==> FitsFile(segments[k], max))
    && (forall k :: 0 < k < |segments| ==> CutBetween(segments[k - 1], segments[k], max))
  }

  /** The size of a file is within the limit, or one message is all there is in it; and files are closed only
      when they have to be. */
  lemma {:induction false} PackIsTight(messages: seq<string>, max: nat)
    ensures Tight(Pack(messages, max), max)
  {
    if messages != [] {
      var front, m := messages[..|messages| - 1], messages[|messages| - 1];
      PackIsTight(front, max);
      var before := Pack(front, max);
      var last := before[|before| - 1];
      TextAppend(last, m);
      TextOfOne(m);
      assert (last + [m])[..|last|] == last && [m][..0] == [];
      TightGrows(before, last + [m], m, max);
    }
  }

  lemma TightGrows(before: seq<seq<string>>, grown: seq<string>, m: string, max: nat)
    requires before != [] && Tight(before, max)
    requires var last := before[|before| - 1]; grown == last + [m]
    ensures FitsFile(grown, max) ==> Tight(before[..|before| - 1] + [grown], max)
    ensures FitsFile([m], max) && CutBetween(before[|before| - 1], [m], max) ==> Tight(before + [[m]], max)
  {
    hide Text, FitsFile;
    var n := |before| - 1;
    var a := before[..n] + [grown];
    forall k | 0 < k < |a| ensures CutBetween(a[k - 1], a[k], max) {
      assert CutBetween(before[k - 1], before[k], max);
      assert a[k - 1] == before[k - 1] && a[k][0] == before[k][0];
    }
    var b := before + [[m]];
    if CutBetween(before[n], [m], max) {
      forall k | 0 < k < |b| ensures CutBetween(b[k - 1], b[k], max) {
        if k <= n { assert CutBetween(before[k - 1], before[k], max); }
      }
    }
  }

  // ----- the places -----

  lemma {:induction false} NextFreeIsFree(c: Config, files: Files, i: nat)
    ensures var j := NextFree(c, files, i);
      (j >= c.maxFileNum || c.Name(j) !in files) && (forall k :: i <= k < j ==> c.Name(k) in files)
    decreases c.maxFileNum - i
  {
    if i < c.maxFileNum && c.Name(i) in files { NextFreeIsFree(c, files, i + 1); }
  }

  /** Later files have greater indices, until the last index; there they stay. */
  lemma {:induction false} SlotsIncrease(c: Config, files: Files, j: nat, k: nat)
    requires j < k
    ensures var a, b := Slot(c, files, j), Slot(c, files, k); a < b || a == b >= c.maxFileNum
  {
    if j < k - 1 { SlotsIncrease(c, files, j, k - 1); }
  }

  lemma NamesDiffer(c: Config, i: nat, j: nat)
    requires i != j && i <= c.maxFileNum && j <= c.maxFileNum
    ensures c.Name(i) != c.Name(j)
  {
    if i < j { NamesSortByIndex(c.fname, i, j, c.maxFileNum); } else { NamesSortByIndex(c.fname, j, i, c.maxFileNum); }
  }

  lemma {:induction false} HigherNames(c: Config, files: Files, segments: seq<seq<string>>, j: nat)
    requires j <= c.maxFileNum && (segments != [] ==> Slot(c, files, |segments| - 1) < j)
    ensures c.Name(j) in Placed(c, files, segments) <==> c.Name(j) in files
  {
    hide Text, Slot, FileNames.RollingName;
    if segments != [] {
      var n := |segments| - 1;
      if n > 0 { SlotsIncrease(c, files, n - 1, n); }
      HigherNames(c, files, segments[..n], j);
      NamesDiffer(c, j, Slot(c, files, n));
    }
  }

  lemma SlotAfter(c: Config, files: Files, k: nat)
    ensures var i := Slot(c, files, k);
      Slot(c, files, k + 1) == if i < c.maxFileNum then NextFree(c, files, i + 1) else i
  {
  }

  lemma LastIsPlaced(c: Config, files: Files, segments: seq<seq<string>>)
    requires segments != []
    ensures c.Name(Slot(c, files, |segments| - 1)) in Placed(c, files, segments)
  {
  }

  /** Rolling on from the current index finds the place of the next file. */
  lemma RollFindsTheNextSlot(c: Config, files: Files, segments: seq<seq<string>>)
    requires segments != []
    ensures NextFree(c, Placed(c, files, segments), Slot(c, files, |segments| - 1)) == Slot(c, files, |segments|)
  {
    hide Pack, Text, Slot, Placed, FileNames.RollingName;
    SlotAfter(c, files, |segments| - 1);
    LastIsPlaced(c, files, segments);
    var now, i := Placed(c, files, segments), Slot(c, files, |segments| - 1);
    if i < c.maxFileNum {
      forall j | i < j < c.maxFileNum ensures c.Name(j) in now <==> c.Name(j) in files {
        HigherNames(c, files, segments, j);
      }
      SameFree(c, now, files, i + 1);
    }
  }

  lemma {:induction false} SameFree(c: Config, a: Files, b: Files, i: nat)
    requires forall j :: i <= j < c.maxFileNum ==> (c.Name(j) in a <==> c.Name(j) in b)
    ensures NextFree(c, a, i) == NextFree(c, b, i)
    decreases c.maxFileNum - i
  {
    if i < c.maxFileNum { SameFree(c, a, b, i + 1); }
  }

  // ----- what is on the disk -----

  /** A file that was closed at an index before the last is never written again; at the last index each file
      takes the place of the one before. */
  lemma {:induction false} SegmentIsKept(c: Config, files: Files, segments: seq<seq<string>>, k: nat)
    requires k < |segments|
    ensures var i, now := Slot(c, files, k), Placed(c, files, segments);
      if k == |segments| - 1 || i < c.maxFileNum then c.Name(i) in now && now[c.Name(i)] == Text(segments[k])
      else Slot(c, files, k + 1) == i
    decreases |segments|
  {
    hide Text, Slot, FileNames.RollingName;
    var n, i := |segments| - 1, Slot(c, files, k);
    if k < n && i < c.maxFileNum {
      SegmentIsKept(c, files, segments[..n], k);
      SlotsIncrease(c, files, k, n);
      NamesSortByIndex(c.fname, i, Slot(c, files, n), c.maxFileNum);
    } else if k < n {
      SlotAfter(c, files, k);
    }
  }

  /** Of the files that were there before, at most the one at the last index is changed. */
  lemma {:induction false} OtherFilesStay(c: Config, files: Files, segments: seq<seq<string>>, name: string)
    requires name in files
    ensures var now := Placed(c, files, segments);
      name in now && (now[name] == files[name] || name == c.Name(c.Last()))
  {
    if segments != [] {
      var n := |segments| - 1;
      OtherFilesStay(c, files, segments[..n], name);
      if name == c.Name(Slot(c, files, n)) { SlotIsFree(c, files, n); }
    }
  }

  lemma SlotIsFree(c: Config, files: Files, k: nat)
    ensures var i := Slot(c, files, k); i == c.Last() || c.Name(i) !in files
  {
    if k == 0 {
      NextFreeIsFree(c, files, 1);
    } else {
      if Slot(c, files, k - 1) < c.maxFileNum { NextFreeIsFree(c, files, Slot(c, files, k - 1) + 1); }
    }
  }

  /** The texts of the first n files, read back from the disk in the order of their indices. */
  function ReadBack(c: Config, files: Files, now: Files, n: nat): string
    requires forall k :: 0 <= k < n ==> c.Name(Slot(c, files, k)) in now
  {
    if n == 0 then "" else ReadBack(c, files, now, n - 1) + now[c.Name(Slot(c, files, n - 1))]
  }

  lemma {:induction false} ReadBackIsText(c: Config, files: Files, now: Files, segments: seq<seq<string>>, n: nat)
    requires n <= |segments|
    requires forall k :: 0 <= k < n ==> c.Name(Slot(c, files, k)) in now && now[c.Name(Slot(c, files, k))] == Text(segments[k])
    ensures ReadBack(c, files, now, n) == Text(Flatten(segments[..n]))
  {
    hide Text, Flatten, Slot, FileNames.RollingName;
    if n == 0 {
      TextOfNone();
    } else {
      ReadBackIsText(c, files, now, segments, n - 1);
      FlattenAppend(segments[..n - 1], segments[n - 1]);
      assert segments[..n - 1] + [segments[n - 1]] == segments[..n];
      TextConcat(Flatten(segments[..n - 1]), segments[n - 1]);
    }
  }

  lemma TextOfNone()
    ensures Text(Flatten([])) == ""
  {
  }

  lemma {:induction false} TextConcat(a: seq<string>, b: seq<string>)
    ensures Text(a + b) == Text(a) + Text(b)
  {
    if b == [] {
      assert a + b == a;
    } else {
      var front, m := b[..|b| - 1], b[|b| - 1];
      TextConcat(a, front);
      assert (a + b)[..|a + b| - 1] == a + front;
    }
  }

  /** As long as the last index has not been used twice, the files hold everything that was logged: read in the
      order of their names, they are the log. */
  lemma NothingIsLost(c: Config, files: Files, messages: seq<string>)
    requires var n := |Pack(messages, c.maxFileSize)|; n >= 2 ==> Slot(c, files, n - 2) < c.maxFileNum
    ensures var n, now := |Pack(messages, c.maxFileSize)|, Placed(c, files, Pack(messages, c.maxFileSize));
      && (forall k :: 0 <= k < n ==> c.Name(Slot(c, files, k)) in now)
      && ReadBack(c, files, now, n) == Text(messages)
      && (forall j, k :: 0 <= j < k < n ==> LexLess(c.Name(Slot(c, files, j)), c.Name(Slot(c, files, k))))
  {
    hide Text, Flatten, FileNames.RollingName, Slot, Placed, Pack, FileNames.LexLess;
    var segments := Pack(messages, c.maxFileSize);
    var n, now := |segments|, Placed(c, files, segments);
    forall k | 0 <= k < n ensures c.Name(Slot(c, files, k)) in now && now[c.Name(Slot(c, files, k))] == Text(segments[k]) {
      if k < n - 2 { SlotsIncrease(c, files, k, n - 2); }
      SegmentIsKept(c, files, segments, k);
    }
    ReadBackIsText(c, files, now, segments, n);
    assert segments[..n] == segments;
    PackKeepsMessages(messages, c.maxFileSize);
    forall j, k | 0 <= j < k < n ensures LexLess(c.Name(Slot(c, files, j)), c.Name(Slot(c, files, k))) {
      if j < n - 2 { SlotsIncrease(c, files, j, n - 2); }
      SlotsIncrease(c, files, j, k);
      NamesSortByIndex(c.fname, Slot(c, files, j), Slot(c, files, k), c.maxFileNum);
    }
  }

  // ----- the sink as an object -----

  lemma PlacedAppend(c: Config, files: Files, segments: seq<seq<string>>, last: seq<string>)
    ensures Placed(c, files, segments + [last]) == Placed(c, files, segments)[c.Name(Slot(c, files, |segments|)) := Text(last)]
  {
    assert (segments + [last])[..|segments|] == segments;
  }

  lemma PackAppend(messages: seq<string>, m: string, max: nat)
    ensures var segments := Pack(messages, max);
      var n := |segments| - 1;
      Pack(messages + [m], max) ==
        if |Text(segments[n])| + |m| <= max || Text(segments[n]) == "" then segments[..n] + [segments[n] + [m]]
        else segments + [[m]]
  {
    assert (messages + [m])[..|messages|] == messages;
  }

  /** A message put at the end of the current file. */
  lemma WriteOn(c: Config, files: Files, segments: seq<seq<string>>, m: string)
    requires segments != []
    ensures var n, now := |segments| - 1, Placed(c, files, segments);
      var name := c.Name(Slot(c, files, n));
      name in now && now[name] == Text(segments[n])
      && Placed(c, files, segments[..n] + [segments[n] + [m]]) == now[name := now[name] + m]
  {
    var n := |segments| - 1;
    PlacedAppend(c, files, segments[..n], segments[n] + [m]);
    TextAppend(segments[n], m);
  }

  lemma Unbuffered(files: Files, name: string)
    requires name in files
    ensures files[name := files[name] + ""] == files
  {
    assert files[name] + "" == files[name];
  }

  class RollingFileSink {
    const config: Config
    /** The disk, and what was written to the open stream but is not on the disk yet. */
    var files: Files
    var buffered: string
    var fileIndex: nat
    var curFileSize: nat
    ghost const filesBefore: Files
    ghost var logged: seq<string>

    ghost predicate Open()
      reads this
    {
      config.Name(fileIndex) in files
    }

    /** The disk as it is once the stream is flushed. */
    ghost function Flushed(): Files
      requires Open()
      reads this
    {
      files[config.Name(fileIndex) := files[config.Name(fileIndex)] + buffered]
    }

    /** The disk holds the packed log, the sink is at the last file, and `curFileSize` is its length. */
    ghost predicate Valid()
      reads this
    {
      var segments := Pack(logged, config.maxFileSize);
      && config.Accepted()
      && Open()
      && Flushed() == Placed(config, filesBefore, segments)
      && fileIndex == Slot(config, filesBefore, |segments| - 1)
      && curFileSize == |Text(segments[|segments| - 1])| == |Flushed()[config.Name(fileIndex)]|
    }

    constructor (c: Config, onDisk: Files)
      requires c.Accepted()
      ensures Valid() && config == c && filesBefore == onDisk && logged == [] && buffered == ""
    {
      config, filesBefore, logged, buffered := c, onDisk, [], "";
      var i := 1;
      while i < c.maxFileNum && c.Name(i) in onDisk
        invariant NextFree(c, onDisk, i) == NextFree(c, onDisk, 1)
        decreases c.maxFileNum - i
      {
        i := i + 1;
      }
      fileIndex, curFileSize, files := i, 0, onDisk[c.Name(i) := ""];
      new;
      PlacedAppend(c, onDisk, [], []);
      assert Pack([], c.maxFileSize) == [[]];
    }

    /** A size limit of zero or too many files: an exception, before anything is opened. */
    static method Create(c: Config, onDisk: Files) returns (sink: Option<RollingFileSink>)
      ensures sink.Some? <==> c.maxFileSize > 0 && c.maxFileNum <= 10000
      ensures sink.Some? ==> fresh(sink.value) && sink.value.Valid() && sink.value.config == c
                             && sink.value.filesBefore == onDisk && sink.value.logged == []
    {
      if c.maxFileSize == 0 { return None; }
      if c.maxFileNum > MOST_FILES { return None; }
      var s := new RollingFileSink(c, onDisk);
      sink := Some(s);
    }

    method RollingFilename(index: nat) returns (name: string)
      ensures name == config.Name(index)
    {
      var pos := SuffixPos(config.fname);
      name := config.fname[..pos] + "_";
      name := FillUint(index, CountDigits(config.maxFileNum), name);
      name := name + config.fname[pos..];
    }

    /** One message: the log grows by it, and `Valid` says what that means for the disk. */
    method Output(buf: string)
      requires Valid()
      modifies this
      ensures Valid() && logged == old(logged) + [buf]
    {
      hide Text, Flatten, FileNames.RollingName, Slot, Placed, Pack;
      ghost var before := Pack(logged, config.maxFileSize);
      ghost var n := |before| - 1;
      PackAppend(logged, buf, config.maxFileSize);
      WriteOn(config, filesBefore, before, buf);
      TextAppend(before[n], buf);
      ghost var rolled := false;
      if curFileSize + |buf| > config.maxFileSize {
        FlushStream();
        var size := SizeOnDisk();
        if size > 0 {
          RollFile(before);
          rolled := true;
          PlacedAppend(config, filesBefore, before, [buf]);
          TextOfOne(buf);
        }
        curFileSize := 0;
      }
      Unbuffered(files, config.Name(fileIndex));
      ghost var view := Flushed();
      assert rolled ==> view == Placed(config, filesBefore, before)[config.Name(fileIndex) := ""];
      assert !rolled ==> view == Placed(config, filesBefore, before);
      Write(buf);
      assert rolled ==> Flushed() == Placed(config, filesBefore, before)[config.Name(fileIndex) := buf] by {
        assert "" + buf == buf;
      }
      assert !rolled ==> Flushed() == view[config.Name(fileIndex) := view[config.Name(fileIndex)] + buf];
      curFileSize := curFileSize + |buf|;
      logged := logged + [buf];
      ghost var after := Pack(logged, config.maxFileSize);
      assert fileIndex == Slot(config, filesBefore, |after| - 1);
      assert Flushed() == Placed(config, filesBefore, after);
      assert curFileSize == |Text(after[|after| - 1])|;
    }

    method FlushStream()
      requires Open()
      modifies this`files, this`buffered
      ensures Open() && buffered == "" && files == old(Flushed())
    {
      var name := RollingFilename(fileIndex);
      files, buffered := files[name := files[name] + buffered], "";
    }

    /** What the file system reports: buffered text is not counted. */
    method SizeOnDisk() returns (size: nat)
      requires Open()
      ensures size == |files[config.Name(fileIndex)]|
    {
      var name := RollingFilename(fileIndex);
      size := |files[name]|;
    }

    /** The stream may pass on any part of what it holds. */
    method Write(buf: string)
      requires Open()
      modifies this`files, this`buffered
      ensures Open() && Flushed() == old(Flushed())[config.Name(fileIndex) := old(Flushed())[config.Name(fileIndex)] + buf]
    {
      var name := RollingFilename(fileIndex);
      var pending := buffered + buf;
      var passed: nat :| passed <= |pending|;
      assert files[name] + pending == files[name] + pending[..passed] + pending[passed..] == files[name] + buffered + buf;
      files := files[name := files[name] + pending[..passed]];
      buffered := pending[passed..];
    }

    /** Closes the file and opens the next one empty, or the same one at the last index. */
    method RollFile(ghost segments: seq<seq<string>>)
      requires Open() && buffered == "" && segments != []
      requires files == Placed(config, filesBefore, segments) && fileIndex == Slot(config, filesBefore, |segments| - 1)
      modifies this`files, this`fileIndex
      ensures Open() && fileIndex == Slot(config, filesBefore, |segments|)
      ensures files == old(files)[config.Name(fileIndex) := ""]
    {
      RollFindsTheNextSlot(config, filesBefore, segments);
      while fileIndex < config.maxFileNum
        invariant NextFree(config, files, fileIndex) == Slot(config, filesBefore, |segments|)
        invariant files == old(files)
        decreases config.maxFileNum - fileIndex
      {
        var candidate := RollingFilename(fileIndex);
        if candidate !in files { break; }
        fileIndex := fileIndex + 1;
      }
      var name := RollingFilename(fileIndex);
      files := files[name := ""];
    }

    method Flush()
      requires Valid()
      modifies this`files, this`buffered
      ensures Valid() && files == Placed(config, filesBefore, Pack(logged, config.maxFileSize))
    {
      FlushStream();
      Unbuffered(files, config.Name(fileIndex));
    }
  }
}
