/** Batched debug logging: values logged under one name are collected into a line,
  * consecutive repeats (equal hashes) are counted rather than written, and the line is
  * emitted once it is long enough or old enough. The value enters as its hash and
  * its printed text; the clock reading is a parameter; the emitted line is returned
  * instead of being written to the log. */
module LogBatch {
  import opened Wrappers
  import Text

  /** `previous` after a flush: no value hashes to it as far as the batch knows. */
  const NO_HASH: int := 0xFFFF_FFFF
  /** Emit once the line holds this many characters... */
  const MAX_SIZE_TO_LOG: nat := 200
  /** ...or once this many nanoseconds (15 s) have passed since the last emit. */
  const MAX_TIME_TO_LOG: int := 15 * 1_000_000_000

  /** `LogBatchEntry`: the pending line, the time of the last emit, the hash of the
    * last value written and how many times it has repeated since. */
  datatype Entry = Entry(buffer: string, start: int, previous: int, repeat: int)

  /** A fresh entry, whose timer starts when it is first used. */
  function NewEntry(now: int): (e: Entry)
    ensures e.buffer == [] && e.previous == NO_HASH && e.repeat == 0
  {
    Entry([], now, NO_HASH, 0)
  }

  /** `AppendRepeat`: writes " x<n>" for a pending repeat count and clears it. */
  function AppendRepeat(e: Entry): (r: Entry)
    ensures r.repeat == 0 || (e.repeat < 0 && r.repeat == e.repeat)
    ensures e.repeat <= 0 ==> r == e
    ensures e.repeat > 0 ==> r.buffer == e.buffer + " x" + Text.IntToString(e.repeat)
    ensures r.start == e.start && r.previous == e.previous
  {
    if e.repeat > 0 then e.(buffer := e.buffer + " x" + Text.IntToString(e.repeat), repeat := 0)
    else e
  }

  /** The value part of `LogBatch`: a repeat is counted, a new value flushes the
    * pending count, then is written after a comma and remembered. */
  function Record(e: Entry, hash: int, text: string): (r: Entry)
    ensures hash == e.previous ==> r == e.(repeat := e.repeat + 1)
    ensures hash != e.previous ==> r.previous == hash && (e.repeat >= 0 ==> r.repeat == 0)
    ensures hash != e.previous ==> r.buffer == AppendRepeat(e).buffer + [','] + text
  {
    if e.previous == hash then e.(repeat := e.repeat + 1)
    else
      var f := AppendRepeat(e);
      f.(buffer := f.buffer + [','] + text, previous := hash)
  }

  /** Whether the line is held back: short and recent. */
  predicate Holds(e: Entry, now: int)
  {
    |e.buffer| < MAX_SIZE_TO_LOG && now - e.start < MAX_TIME_TO_LOG
  }

  /** One call of `LogBatch` on one entry: the new entry and the line emitted, if any. */
  function Step(name: string, e: Entry, hash: int, text: string, now: int): (r: (Entry, Option<string>))
    ensures r.1.None? <==> Holds(Record(e, hash, text), now)
    ensures r.1.None? ==> r.0 == Record(e, hash, text)
    ensures r.1.Some? ==> r.0 == Entry([], now, NO_HASH, 0)
  {
    var f := Record(e, hash, text);
    if Holds(f, now) then (f, None)
    else
      var g := AppendRepeat(f);
      (Entry([], now, NO_HASH, 0), Some(name + ": " + g.buffer))
  }

  /** The emitted line carries the name, then every pending value and the final count. */
  lemma EmittedLine(name: string, e: Entry, hash: int, text: string, now: int)
    requires Step(name, e, hash, text, now).1.Some?
    ensures var f := Record(e, hash, text);
            Step(name, e, hash, text, now).1.value
            == name + ": " + f.buffer + (if f.repeat > 0 then " x" + Text.IntToString(f.repeat) else "")
  {
  }

  /** A repeated value never changes the line, only the count. */
  lemma RepeatKeepsBuffer(name: string, e: Entry, text: string, now: int)
    requires Holds(e, now)
    ensures Step(name, e, e.previous, text, now) == (e.(repeat := e.repeat + 1), None)
  {
  }

  /** Counts never go negative: they start at 0, grow by one, and are reset to 0. */
  lemma RepeatNonNegative(name: string, e: Entry, hash: int, text: string, now: int)
    requires e.repeat >= 0
    ensures Step(name, e, hash, text, now).0.repeat >= 0
  {
  }

  /** The per-name table of entries (`logBatches`). */
  class Batches {
    var entries: map<string, Entry>

    constructor ()
      ensures entries == map[]
    {
      entries := map[];
    }

    /** `LogBatch(file, line, name, value)`: updates only the entry of `name`
      * (creating it on first use) and returns the emitted line, if any. */
    method Log(name: string, hash: int, text: string, now: int) returns (emitted: Option<string>)
      modifies this
      ensures var e := if name in old(entries) then old(entries)[name] else NewEntry(now);
              entries == old(entries)[name := Step(name, e, hash, text, now).0]
              && emitted == Step(name, e, hash, text, now).1
      ensures forall other :: other in old(entries) && other != name ==> other in entries && entries[other] == old(entries)[other]
    {
      var entry := if name in entries then entries[name] else NewEntry(now);
      var r := Step(name, entry, hash, text, now);
      entries := entries[name := r.0];
      emitted := r.1;
    }
  }
}
