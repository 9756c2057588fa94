/**
 The log store of a server, which keeps its entries in memory.
 */
module LogStore {
  import opened Types
  import opened Log

  datatype EntryInfo = EntryInfo(entry: Entry, creationTime: nat)

  function EntriesOf(infos: seq<EntryInfo>): (r: seq<Entry>)
    ensures |r| == |infos|
    ensures forall i :: 0 <= i < |r| ==> r[i] == infos[i].entry
  {
    if infos == [] then [] else [infos[0].entry] + EntriesOf(infos[1..])
  }

  //
  // Compaction
  //

  /** How a compaction goes: it drops entries and ends, or its index arithmetic fails, or it spins. */
  datatype Compaction = Ends(dropped: nat) | Underflows | Spins

  predicate Expired(info: EntryInfo, now: nat, retention: nat) {
    retention == 0 || now > info.creationTime + retention
  }

  /** The loop of a compaction over the entries of a log that starts at `start`. */
  function Compacting(infos: seq<EntryInfo>, start: nat, commit: nat, now: nat, retention: nat): Compaction {
    if commit < start then Underflows
    else if commit == start then Ends(0)
    else if infos == [] then Spins
    else if !Expired(infos[0], now, retention) then Ends(0)
    else
      match Compacting(infos[1..], start + 1, commit, now, retention)
      case Ends(dropped) => Ends(dropped + 1)
      case other => other
  }

  /**
   A compaction ends exactly when the log does not start above the committed index, and either reaches
   that index or holds an entry too young to be dropped.
   */
  lemma {:induction false} CompactionEnds(
    infos: seq<EntryInfo>, start: nat, commit: nat, now: nat, retention: nat)
    ensures Compacting(infos, start, commit, now, retention).Ends?
      <==> start <= commit
           && (commit <= start + |infos|
               || exists i :: 0 <= i < |infos| && !Expired(infos[i], now, retention))
    ensures Compacting(infos, start, commit, now, retention).Underflows? <==> commit < start
  {
    if start < commit && infos != [] {
      CompactionEnds(infos[1..], start + 1, commit, now, retention);
      forall i | 0 <= i < |infos[1..]| ensures infos[1..][i] == infos[i + 1] {}
      if i :| 0 <= i < |infos| && !Expired(infos[i], now, retention) {
        assert i > 0 ==> !Expired(infos[1..][i - 1], now, retention);
      }
    }
  }

  /**
   What an ended compaction drops: expired entries below the committed index, and as many as it can.
   */
  lemma {:induction false} CompactionDrops(
    infos: seq<EntryInfo>, start: nat, commit: nat, now: nat, retention: nat)
    requires Compacting(infos, start, commit, now, retention).Ends?
    ensures var n := Compacting(infos, start, commit, now, retention).dropped;
      && n <= |infos| && start + n <= commit
      && (forall i :: 0 <= i < n ==> Expired(infos[i], now, retention))
      && (start + n == commit || (n < |infos| && !Expired(infos[n], now, retention)))
  {
    if start < commit && Expired(infos[0], now, retention) {
      CompactionDrops(infos[1..], start + 1, commit, now, retention);
    }
  }

  /** A new store with one entry: unlocking its compaction takes 1 from 0. */
  lemma FreshStoreUnderflows(info: EntryInfo, now: nat, retention: nat)
    ensures Compacting([info], 1, 0, now, retention) == Underflows
  {}

  //
  // Transfers
  //

  /** What a chunk of a log is written as. */
  datatype Token = Start(index: nat) | Flag(more: bool) | Item(entry: Entry)

  function EncodeEntries(entries: seq<Entry>): seq<Token> {
    if entries == [] then [Flag(false)]
    else [Flag(true), Item(entries[0])] + EncodeEntries(entries[1..])
  }

  function Encode(start: nat, entries: seq<Entry>): seq<Token> {
    [Start(start)] + EncodeEntries(entries)
  }

  datatype Chunk = Chunk(start: nat, entries: seq<Entry>)

  /** The entries up to the flag that ends them, unless the tokens are malformed. */
  function DecodeEntries(tokens: seq<Token>): Option<seq<Entry>> {
    if tokens == [] || !tokens[0].Flag? then None
    else if !tokens[0].more then Some([])
    else if |tokens| == 1 || !tokens[1].Item? then None
    else
      match DecodeEntries(tokens[2..])
      case None => None
      case Some(rest) => Some([tokens[1].entry] + rest)
  }

  function Decode(tokens: seq<Token>): Option<Chunk> {
    if tokens == [] || !tokens[0].Start? then None
    else
      match DecodeEntries(tokens[1..])
      case None => None
      case Some(entries) => Some(Chunk(tokens[0].index, entries))
  }

  lemma {:induction false} DecodesEntries(entries: seq<Entry>)
    ensures DecodeEntries(EncodeEntries(entries)) == Some(entries)
  {
    if entries != [] {
      DecodesEntries(entries[1..]);
      assert EncodeEntries(entries)[2..] == EncodeEntries(entries[1..]);
      assert entries == [entries[0]] + entries[1..];
    }
  }

  /** The framing of a chunk decodes to what was encoded. */
  lemma DecodesChunk(start: nat, entries: seq<Entry>)
    ensures Decode(Encode(start, entries)) == Some(Chunk(start, entries))
  {
    DecodesEntries(entries);
    assert Encode(start, entries)[1..] == EncodeEntries(entries);
  }

  /** How many of the first entries have values of at most this total length. */
  function Fitting(entries: seq<Entry>, room: int): (n: nat)
    ensures n <= |entries|
  {
    if entries == [] || entries[0].value.Length() > room then 0
    else 1 + Fitting(entries[1..], room - entries[0].value.Length())
  }

  /** The chunk so far, and the entries from position `i` on that still fit in the room left. */
  function FillingRest(chunk: seq<Entry>, entries: seq<Entry>, i: nat, room: int): seq<Entry>
    decreases |entries| - i
  {
    if i >= |entries| || entries[i].value.Length() > room then chunk
    else FillingRest(chunk + [entries[i]], entries, i + 1, room - entries[i].value.Length())
  }

  lemma {:induction false} FillingRestIs(chunk: seq<Entry>, entries: seq<Entry>, i: nat, room: int)
    requires i <= |entries|
    ensures FillingRest(chunk, entries, i, room) == chunk + entries[i..][..Fitting(entries[i..], room)]
    decreases |entries| - i
  {
    if i < |entries| && entries[i].value.Length() <= room {
      var rest := room - entries[i].value.Length();
      FillingRestIs(chunk + [entries[i]], entries, i + 1, rest);
      assert entries[i..][1..] == entries[i + 1..];
      var n := Fitting(entries[i + 1..], rest);
      assert entries[i..][..n + 1] == [entries[i]] + entries[i + 1..][..n];
    }
  }

  lemma FillingIs(entries: seq<Entry>, i: nat, room: int)
    requires i <= |entries|
    ensures FillingRest([], entries, i, room) == entries[i..][..Fitting(entries[i..], room)]
  {
    FillingRestIs([], entries, i, room);
  }

  function TotalLength(entries: seq<Entry>): nat {
    if entries == [] then 0 else entries[0].value.Length() + TotalLength(entries[1..])
  }

  /** A chunk is as long as its room allows. */
  lemma {:induction false} FittingIsLongest(entries: seq<Entry>, room: nat)
    ensures var n := Fitting(entries, room);
      && TotalLength(entries[..n]) <= room
      && (n < |entries| ==> TotalLength(entries[..n + 1]) > room)
  {
    var n := Fitting(entries, room);
    if n > 0 {
      FittingIsLongest(entries[1..], room - entries[0].value.Length());
      assert entries[..n][1..] == entries[1..][..n - 1];
      if n < |entries| {
        assert entries[..n + 1][1..] == entries[1..][..n];
      }
    } else if entries != [] {
      assert entries[..1][1..] == [];
    }
  }

  /** The index the chunk from `from` ends before. */
  function ChunkEnd(log: Log, from: nat, maxSize: nat): (end: nat)
    requires log.start <= from <= log.End()
    ensures from <= end <= log.End()
  {
    from + Fitting(log.Slice(from, log.End()), maxSize)
  }

  lemma ChunkIs(log: Log, from: nat, maxSize: nat)
    requires log.start <= from <= log.End()
    ensures FillingRest([], log.entries, from - log.start, maxSize)
      == log.Slice(from, ChunkEnd(log, from, maxSize))
  {
    SliceToEnd(log, from);
    FillingIs(log.entries, from - log.start, maxSize);
  }

  /** A store's log once the chunk is written to it. */
  function Written(log: Log, chunk: Chunk): Log
    requires log.start <= chunk.start <= log.End()
  {
    var cut := log.CutAt(chunk.start);
    cut.(entries := cut.entries + chunk.entries)
  }

  /** The target's log after at most `rounds` chunks are read and written, if the last was reached. */
  function Transferred(source: Log, target: Log, from: nat, maxSize: nat, rounds: nat): Option<Log>
    requires source.start <= from <= source.End() && target.start <= from <= target.End()
    decreases rounds
  {
    if rounds == 0 then None
    else
      var end := ChunkEnd(source, from, maxSize);
      var next := Written(target, Chunk(from, source.Slice(from, end)));
      if end == source.End() then Some(next)
      else Transferred(source, next, end, maxSize, rounds - 1)
  }

  predicate AllFit(log: Log, from: nat, maxSize: nat)
    requires log.start <= from
  {
    forall i :: from <= i < log.End() ==> log.At(i).value.Length() <= maxSize
  }

  /**
   A transfer in chunks, each from where the last one ended, makes the target its own prefix below the
   start and the source's suffix from there, after at most one chunk to an entry.
   */
  lemma {:induction false} TransferCompletes(
    source: Log, target: Log, from: nat, maxSize: nat, rounds: nat)
    requires source.start <= from <= source.End() && target.start <= from <= target.End()
    requires AllFit(source, from, maxSize) && rounds > source.End() - from
    ensures Transferred(source, target, from, maxSize, rounds)
      == Some(Suffixed(target, source, from))
    decreases rounds
  {
    var end := ChunkEnd(source, from, maxSize);
    var next := Written(target, Chunk(from, source.Slice(from, end)));
    OneChunk(source, target, from, end);
    if end < source.End() {
      assert source.At(from).value.Length() <= maxSize;
      assert end > from;
      TransferCompletes(source, next, end, maxSize, rounds - 1);
    }
  }

  /** A chunk brings the target closer to what it is to become. */
  lemma OneChunk(source: Log, target: Log, from: nat, end: nat)
    requires source.start <= from <= end <= source.End() && target.start <= from <= target.End()
    ensures var next := Written(target, Chunk(from, source.Slice(from, end)));
      && next.start == target.start && next.End() == end
      && Suffixed(next, source, end) == Suffixed(target, source, from)
      && (end == source.End() ==> next == Suffixed(target, source, from))
  {
    var next := Written(target, Chunk(from, source.Slice(from, end)));
    var a, b, c := target.Slice(target.start, from), source.Slice(from, end), source.Slice(end, source.End());
    assert next.Slice(target.start, end) == a + b;
    assert source.Slice(from, source.End()) == b + c;
    assert (a + b) + c == a + (b + c);
  }

  /** The target's own entries below the index, and the source's from there. */
  function Suffixed(target: Log, source: Log, from: nat): Log
    requires source.start <= from <= source.End() && target.start <= from <= target.End()
  {
    Log(target.start, target.Slice(target.start, from) + source.Slice(from, source.End()))
  }

  /** When some value does not fit, no number of chunks completes the transfer. */
  lemma {:induction false} TransferStuck(
    source: Log, target: Log, from: nat, maxSize: nat, rounds: nat)
    requires source.start <= from <= source.End() && target.start <= from <= target.End()
    requires !AllFit(source, from, maxSize)
    ensures Transferred(source, target, from, maxSize, rounds).None?
    decreases rounds
  {
    if rounds > 0 {
      var end := ChunkEnd(source, from, maxSize);
      var i :| from <= i < source.End() && source.At(i).value.Length() > maxSize;
      FittingStops(source.Slice(from, source.End()), maxSize, i - from);
      TransferStuck(source, Written(target, Chunk(from, source.Slice(from, end))), end, maxSize, rounds - 1);
    }
  }

  lemma {:induction false} FittingStops(entries: seq<Entry>, room: int, i: nat)
    requires i < |entries| && entries[i].value.Length() > room
    ensures Fitting(entries, room) <= i
  {
    if i > 0 && entries[0].value.Length() <= room {
      FittingStops(entries[1..], room - entries[0].value.Length(), i - 1);
    }
  }

  //
  // The store
  //

  /** Writes the frame of a chunk: its start, each entry behind a flag, and a flag that ends it. */
  method Frame(startLogIndex: nat, logEntries: seq<Entry>) returns (stream: seq<Token>)
    ensures Decode(stream) == Some(Chunk(startLogIndex, logEntries))
  {
    stream := [Start(startLogIndex)];
    assert logEntries[0..] == logEntries;
    for i := 0 to |logEntries|
      invariant stream + EncodeEntries(logEntries[i..]) == Encode(startLogIndex, logEntries)
    {
      assert logEntries[i..][1..] == logEntries[i + 1..];
      stream := stream + [Flag(true), Item(logEntries[i])];
    }
    assert logEntries[|logEntries|..] == [];
    stream := stream + [Flag(false)];
    DecodesChunk(startLogIndex, logEntries);
  }

  /** Reads a frame back, unless it is malformed. */
  method Parse(stream: seq<Token>) returns (chunk: Option<Chunk>)
    ensures chunk == Decode(stream)
  {
    if stream == [] || !stream[0].Start? {
      return None;
    }
    var logEntries := [];
    var position := 1;
    ghost var all := DecodeEntries(stream[1..]);
    assert all.Some? ==> [] + all.value == all.value;
    while true
      invariant 1 <= position <= |stream|
      invariant all == Prefixed(logEntries, DecodeEntries(stream[position..]))
      decreases |stream| - position
    {
      if position == |stream| || !stream[position].Flag? {
        return None;
      }
      if !stream[position].more {
        assert logEntries + [] == logEntries;
        return Some(Chunk(stream[0].index, logEntries));
      }
      if position + 1 == |stream| || !stream[position + 1].Item? {
        return None;
      }
      DecodesNext(logEntries, stream, position);
      logEntries := logEntries + [stream[position + 1].entry];
      position := position + 2;
    }
  }

  function Prefixed(entries: seq<Entry>, rest: Option<seq<Entry>>): Option<seq<Entry>> {
    match rest
    case None => None
    case Some(more) => Some(entries + more)
  }

  lemma DecodesNext(entries: seq<Entry>, stream: seq<Token>, position: nat)
    requires position + 1 < |stream| && stream[position] == Flag(true) && stream[position + 1].Item?
    ensures Prefixed(entries, DecodeEntries(stream[position..]))
      == Prefixed(entries + [stream[position + 1].entry], DecodeEntries(stream[position + 2..]))
  {
    assert stream[position..][2..] == stream[position + 2..];
    var rest := DecodeEntries(stream[position + 2..]);
    if rest.Some? {
      assert entries + ([stream[position + 1].entry] + rest.value)
          == (entries + [stream[position + 1].entry]) + rest.value;
    }
  }

  lemma DropIsCompacted(infos: seq<EntryInfo>, start: nat, commit: nat, n: nat)
    requires n <= |infos| && (n > 0 ==> start + n <= commit)
    ensures Compacted(Log(start, EntriesOf(infos)), Log(start + n, EntriesOf(infos[n..])), commit)
  {
    EntriesOfDrop(infos, n);
    ForgetIsCompacted(Log(start, EntriesOf(infos)), n, commit);
  }

  lemma {:induction false} EntriesOfDrop(infos: seq<EntryInfo>, n: nat)
    requires n <= |infos|
    ensures EntriesOf(infos[n..]) == EntriesOf(infos)[n..]
  {
    if n > 0 {
      EntriesOfDrop(infos[1..], n - 1);
      assert infos[n..] == infos[1..][n - 1..];
      assert EntriesOf(infos)[n..] == EntriesOf(infos[1..])[n - 1..];
    } else {
      assert infos[0..] == infos;
    }
  }

  lemma ForgetIsCompacted(log: Log, n: nat, commit: nat)
    requires n <= |log.entries| && (n > 0 ==> log.start + n <= commit)
    ensures Compacted(log, log.Forget(n), commit)
  {}

  class MemoryLogStore {
    const minRetention: nat
    var startIndex: nat
    var entries: seq<EntryInfo>
    var commitIndex: nat
    var compactionLocked: bool

    /** The log the store holds. */
    function Contents(): (log: Log)
      reads this
    {
      Log(startIndex, EntriesOf(entries))
    }

    /** Whether a compaction would end: otherwise its index arithmetic fails, or it spins. */
    predicate CanCompact(now: nat)
      reads this
    {
      compactionLocked || entries == []
      || Compacting(entries, startIndex, commitIndex, now, minRetention).Ends?
    }

    /** The committed index lies within the log: then every compaction ends. */
    predicate Sound()
      reads this
    {
      startIndex <= commitIndex <= Contents().End()
    }

    lemma SoundCompacts(now: nat)
      requires Sound()
      ensures CanCompact(now)
    {
      CompactionEnds(entries, startIndex, commitIndex, now, minRetention);
    }

    constructor (minRetention: nat)
      ensures Contents() == Log(1, []) && commitIndex == 0 && !compactionLocked
      ensures this.minRetention == minRetention
    {
      this.minRetention := minRetention;
      startIndex, entries, commitIndex, compactionLocked := 1, [], 0, false;
    }

    method StartIndex() returns (index: nat)
      ensures index == Contents().start
    {
      index := startIndex;
    }

    method EndIndex() returns (index: nat)
      ensures index == Contents().End()
    {
      index := startIndex + |entries|;
    }

    method Last() returns (entry: Entry)
      ensures Contents().entries == [] ==> entry == Entry(0, Application([]), None, 0)
      ensures Contents().entries != [] ==> entry == Contents().At(Contents().End() - 1)
    {
      if entries != [] {
        entry := entries[|entries| - 1].entry;
      } else {
        entry := Entry(0, Application([]), None, 0);
      }
    }

    method Get(startLogIndex: nat, endLogIndex: nat) returns (logEntries: seq<Entry>)
      requires Contents().start <= startLogIndex <= endLogIndex <= Contents().End()
      ensures logEntries == Contents().Slice(startLogIndex, endLogIndex)
    {
      logEntries := [];
      for i := startLogIndex - startIndex to endLogIndex - startIndex
        invariant logEntries == Contents().Slice(startLogIndex, startIndex + i)
      {
        logEntries := logEntries + [entries[i].entry];
      }
    }

    method GetAt(logIndex: nat) returns (entry: Entry)
      requires Contents().start <= logIndex < Contents().End()
      ensures entry == Contents().At(logIndex)
    {
      entry := entries[logIndex - startIndex].entry;
    }

    method Append(entry: Entry, now: nat) returns (logIndex: nat)
      modifies this
      ensures Contents() == old(Contents()).Append(entry) && logIndex == Contents().End() - 1
      ensures old(Sound()) ==> Sound()
      ensures commitIndex == old(commitIndex) && compactionLocked == old(compactionLocked)
    {
      entries := entries + [EntryInfo(entry, now)];
      logIndex := startIndex + |entries| - 1;
    }

    /** The log is cut at the index, and the entry put there. */
    method SetAt(logIndex: nat, entry: Entry, now: nat)
      requires Contents().start <= logIndex <= Contents().End()
      modifies this
      ensures Contents() == old(Contents()).CutAt(logIndex).Append(entry)
      ensures old(Sound()) && logIndex + 1 >= commitIndex ==> Sound()
      ensures commitIndex == old(commitIndex) && compactionLocked == old(compactionLocked)
    {
      Trim(logIndex);
      entries := entries + [EntryInfo(entry, now)];
    }

    method Clear(startLogIndex: nat)
      modifies this
      ensures Contents() == Log(startLogIndex, []) && commitIndex == startLogIndex && Sound()
      ensures compactionLocked == old(compactionLocked)
    {
      entries := [];
      startIndex := startLogIndex;
      commitIndex := startLogIndex;
    }

    /** Nothing is lost but expired entries below the committed index. */
    method Commit(logIndex: nat, now: nat)
      requires Contents().start <= logIndex < Contents().End()
      modifies this
      ensures commitIndex == logIndex && compactionLocked == old(compactionLocked) && Sound()
      ensures Compacted(old(Contents()), Contents(), logIndex)
      ensures compactionLocked ==> Contents() == old(Contents())
      ensures !compactionLocked && minRetention == 0 ==> startIndex == logIndex
    {
      commitIndex := logIndex;
      CompactionEnds(entries, startIndex, commitIndex, now, minRetention);
      CompactionDrops(entries, startIndex, commitIndex, now, minRetention);
      Compact(now);
    }

    /** A chunk of at most this size, and the index of the next one. */
    method Read(startLogIndex: nat, maxSize: nat) returns (stream: seq<Token>, next: Option<nat>)
      requires Contents().start <= startLogIndex <= Contents().End()
      ensures var end := ChunkEnd(Contents(), startLogIndex, maxSize);
        && Decode(stream) == Some(Chunk(startLogIndex, Contents().Slice(startLogIndex, end)))
        && next == if end == Contents().End() then None else Some(end)
    {
      var logEntries := Fill(startLogIndex, maxSize);
      ChunkIs(Contents(), startLogIndex, maxSize);
      var logIndex := startLogIndex + |logEntries|;
      stream := Frame(startLogIndex, logEntries);
      next := if logIndex >= startIndex + |entries| then None else Some(logIndex);
    }

    /** The entries of a chunk. */
    method Fill(startLogIndex: nat, maxSize: nat) returns (logEntries: seq<Entry>)
      requires Contents().start <= startLogIndex <= Contents().End()
      ensures logEntries == FillingRest([], Contents().entries, startLogIndex - startIndex, maxSize)
    {
      var size := 0;
      logEntries := [];
      var logIndex := startLogIndex - startIndex;
      ghost var all := Contents().entries;
      ghost var filled := FillingRest([], all, logIndex, maxSize);
      while logIndex < |entries|
        invariant logIndex <= |entries| && size <= maxSize
        invariant FillingRest(logEntries, all, logIndex, maxSize - size) == filled
      {
        var entry := entries[logIndex].entry;
        size := size + entry.value.Length();
        if size > maxSize {
          break;
        }
        logEntries := logEntries + [entry];
        logIndex := logIndex + 1;
      }
    }

    /** A chunk is written whole, or refused if it is malformed. */
    method Write(stream: seq<Token>, now: nat) returns (ok: bool)
      requires Decode(stream).Some? ==> Contents().start <= Decode(stream).value.start <= Contents().End()
      modifies this
      ensures ok == Decode(stream).Some?
      ensures Contents() == if ok then Written(old(Contents()), Decode(stream).value) else old(Contents())
      ensures commitIndex == old(commitIndex) && compactionLocked == old(compactionLocked)
    {
      var chunk := Parse(stream);
      if chunk.None? {
        return false;
      }
      Trim(chunk.value.start);
      ghost var cut := Contents();
      for i := 0 to |chunk.value.entries|
        invariant commitIndex == old(commitIndex) && compactionLocked == old(compactionLocked)
        invariant Contents() == cut.(entries := cut.entries + chunk.value.entries[..i])
      {
        entries := entries + [EntryInfo(chunk.value.entries[i], now)];
      }
      ok := true;
    }

    method LockCompaction()
      modifies this
      ensures compactionLocked
      ensures Contents() == old(Contents()) && commitIndex == old(commitIndex)
    {
      compactionLocked := true;
    }

    /** A store that was never committed to, or was cut below what it committed, may fail to unlock. */
    method UnlockCompaction(now: nat)
      requires entries != [] ==> Compacting(entries, startIndex, commitIndex, now, minRetention).Ends?
      modifies this
      ensures !compactionLocked && commitIndex == old(commitIndex)
      ensures Compacted(old(Contents()), Contents(), commitIndex)
      ensures old(Sound()) ==> Sound()
    {
      compactionLocked := false;
      Compact(now);
    }

    method Trim(logIndex: nat)
      requires Contents().start <= logIndex <= Contents().End()
      modifies this
      ensures Contents() == old(Contents()).CutAt(logIndex)
      ensures entries == old(entries)[..logIndex - old(startIndex)]
      ensures commitIndex == old(commitIndex) && compactionLocked == old(compactionLocked)
    {
      var removeCount := |entries| - (logIndex - startIndex);
      for i := 0 to removeCount
        invariant startIndex == old(startIndex) && commitIndex == old(commitIndex)
        invariant compactionLocked == old(compactionLocked)
        invariant entries == old(entries)[..|old(entries)| - i]
      {
        entries := entries[..|entries| - 1];
      }
    }

    method Compact(now: nat)
      requires CanCompact(now)
      modifies this
      ensures commitIndex == old(commitIndex) && compactionLocked == old(compactionLocked)
      ensures Compacted(old(Contents()), Contents(), commitIndex)
      ensures compactionLocked ==> entries == old(entries)
      ensures !compactionLocked && old(entries) != [] ==>
        && startIndex == old(startIndex)
           + Compacting(old(entries), old(startIndex), commitIndex, now, minRetention).dropped
        && entries == old(entries)[startIndex - old(startIndex)..]
    {
      if compactionLocked || entries == [] {
        return;
      }
      CompactionDrops(entries, startIndex, commitIndex, now, minRetention);
      DropIsCompacted(entries, startIndex, commitIndex,
                      Compacting(entries, startIndex, commitIndex, now, minRetention).dropped);
      DropExpired(now);
    }

    method DropExpired(now: nat)
      requires Compacting(entries, startIndex, commitIndex, now, minRetention).Ends?
      modifies this
      ensures commitIndex == old(commitIndex) && compactionLocked == old(compactionLocked)
      ensures var n := Compacting(old(entries), old(startIndex), commitIndex, now, minRetention).dropped;
        n <= |old(entries)| && startIndex == old(startIndex) + n && entries == old(entries)[n..]
    {
      CompactionDrops(entries, startIndex, commitIndex, now, minRetention);
      ghost var total := Compacting(entries, startIndex, commitIndex, now, minRetention).dropped;
      ghost var n := 0;
      while commitIndex - startIndex > 0
        invariant n <= |old(entries)| && startIndex == old(startIndex) + n
        invariant commitIndex == old(commitIndex) && compactionLocked == old(compactionLocked)
        invariant entries == old(entries)[n..]
        invariant Compacting(entries, startIndex, commitIndex, now, minRetention).Ends?
        invariant n + Compacting(entries, startIndex, commitIndex, now, minRetention).dropped == total
        decreases |entries|
      {
        if entries != [] {
          var info := entries[0];
          if minRetention == 0 || now > info.creationTime + minRetention {
            entries := entries[1..];
            startIndex := startIndex + 1;
            n := n + 1;
          } else {
            break;
          }
        }
      }
    }
  }

  /** Chunk after chunk is read from one store and written to the other, until there is no next one. */
  method TransferLog(source: MemoryLogStore, target: MemoryLogStore, from: nat, maxSize: nat, now: nat)
    requires source != target
    requires source.Contents().start <= from <= source.Contents().End()
    requires target.Contents().start <= from <= target.Contents().End()
    requires AllFit(source.Contents(), from, maxSize)
    modifies target
    ensures target.Contents() == Suffixed(old(target.Contents()), source.Contents(), from)
  {
    var next := Some(from);
    ghost var log := source.Contents();
    ghost var goal := Suffixed(target.Contents(), log, from);
    while next.Some?
      invariant source.Contents() == log
      invariant match next
        case Some(index) => CanGoOn(log, target.Contents(), index, from, goal)
        case None => target.Contents() == goal
      decreases if next.Some? then log.End() - next.value + 1 else 0
    {
      var index := next.value;
      var stream;
      stream, next := source.Read(index, maxSize);
      ghost var end := ChunkEnd(log, index, maxSize);
      OneChunk(log, target.Contents(), index, end);
      ChunkAdvances(log, index, maxSize);
      var _ := target.Write(stream, now);
    }
  }

  predicate CanGoOn(source: Log, target: Log, index: nat, from: nat, goal: Log) {
    && source.start <= from <= index <= source.End() && target.start <= index <= target.End()
    && Suffixed(target, source, index) == goal
  }

  lemma ChunkAdvances(log: Log, from: nat, maxSize: nat)
    requires log.start <= from <= log.End() && AllFit(log, from, maxSize)
    ensures ChunkEnd(log, from, maxSize) > from || ChunkEnd(log, from, maxSize) == log.End()
  {
    if from < log.End() {
      assert log.At(from).value.Length() <= maxSize;
    }
  }

  /** One log is the other but for entries forgotten below an index. */
  predicate Compacted(before: Log, after: Log, commit: nat) {
    && before.start <= after.start <= before.End()
    && (after.start > before.start ==> after.start <= commit)
    && after == before.Forget(after.start - before.start)
  }

  /** Compaction cannot be seen from the new start on. */
  lemma CompactedKeeps(before: Log, after: Log, commit: nat)
    requires Compacted(before, after, commit)
    ensures after.End() == before.End()
    ensures forall index :: after.start <= index < after.End() ==> after.At(index) == before.At(index)
    ensures forall from, to :: after.start <= from <= to <= after.End() ==>
      after.Slice(from, to) == before.Slice(from, to)
    ensures forall index :: after.start <= index < after.End() ==> after.TermAt(index) == before.TermAt(index)
    ensures after.entries != [] ==> after.LastTerm() == before.LastTerm()
  {}
}
