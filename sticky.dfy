/**
 * The overlay page of renderer/pages/sticky.tsx: the record counter and the single
 * interval timer that advances it, and processText, which turns the row at the
 * counter into the lines the overlay shows.
 */
module Sticky {
  import opened Wrappers
  import opened Strings
  import opened Records
  import opened RandomIndex

  /** Kuroshiro's convert in furigana/hiragana mode: None when the promise rejects. */
  type Converter = string -> Option<string>

  /** The parts of the stickyWindow settings the page reads. */
  datatype StickyConfig = StickyConfig(
    isBreakLine: bool,
    isFurigana: bool,
    splitedBy: string,
    isRandom: bool,
    interval: int)

  // ---------------------------------------------------------------------------
  // Tick rule

  /** The sequential update `prev >= len - 1 ? 0 : prev + 1`. */
  function SequentialNext(prev: int, len: nat): (r: int)
    ensures len > 0 && prev >= 0 ==> 0 <= r < len
    ensures prev >= len - 1 ==> r == 0
    ensures prev < len - 1 ==> r == prev + 1
  {
    if prev >= len - 1 then 0 else prev + 1
  }

  /** `randomCounter(max)`, where `r` is the value Math.random() returned. Repeats are possible. */
  function RandomCounter(r: real, max: nat): (c: int)
    requires 0.0 <= r < 1.0
    ensures max > 0 ==> 0 <= c < max
    ensures max == 0 ==> c == 0
  {
    ScaledFloor(r, max)
  }

  /** The counter after `k` sequential ticks from `start` over `len` records. */
  function SequentialTicks(start: int, len: nat, k: nat): int {
    if k == 0 then start else SequentialNext(SequentialTicks(start, len, k - 1), len)
  }

  /** From 0, the first `len - 1` ticks count up one by one. */
  lemma {:induction false} SequentialTicksCountUp(len: nat, k: nat)
    requires k < len
    ensures SequentialTicks(0, len, k) == k
  {
    if k > 0 {
      SequentialTicksCountUp(len, k - 1);
    }
  }

  /** Ticking `a` times and then `b` times is ticking `a + b` times. */
  lemma {:induction false} SequentialTicksCompose(start: int, len: nat, a: nat, b: nat)
    ensures SequentialTicks(start, len, a + b) == SequentialTicks(SequentialTicks(start, len, a), len, b)
  {
    if b > 0 {
      SequentialTicksCompose(start, len, a, b - 1);
    }
  }

  /**
   * Starting from 0, `len` sequential ticks visit 0, 1, ..., len - 1 in that order,
   * so every record exactly once; the tick after them is back at 0, and from then on
   * the same cycle repeats.
   */
  lemma SequentialCycle(len: nat)
    requires len > 0
    ensures seq(len, k requires 0 <= k < len => SequentialTicks(0, len, k)) == seq(len, k => k)
    ensures SequentialTicks(0, len, len) == 0
    ensures forall k: nat :: SequentialTicks(0, len, len + k) == SequentialTicks(0, len, k)
  {
    forall k | 0 <= k < len
      ensures SequentialTicks(0, len, k) == k
    {
      SequentialTicksCountUp(len, k);
    }
    SequentialTicksCountUp(len, len - 1);
    assert SequentialTicks(0, len, len) == 0;
    forall k: nat
      ensures SequentialTicks(0, len, len + k) == SequentialTicks(0, len, k)
    {
      SequentialTicksCompose(0, len, len, k);
    }
  }

  // ---------------------------------------------------------------------------
  // Column filtering

  /** The positions below `n` that occur in `shown`, ascending. */
  function KeptPositions(n: nat, shown: seq<int>): (ps: seq<nat>)
    ensures forall k :: 0 <= k < |ps| ==> ps[k] < n
  {
    if n == 0 then []
    else KeptPositions(n - 1, shown) + (if n - 1 in shown then [n - 1] else [])
  }

  /** A position below `n` is kept exactly when it is listed, and the kept ones ascend. */
  lemma {:induction false} KeptPositionsSpec(n: nat, shown: seq<int>)
    ensures var ps := KeptPositions(n, shown);
      && (forall i :: 0 <= i < n ==> (i in ps <==> i in shown))
      && (forall k, l :: 0 <= k < l < |ps| ==> ps[k] < ps[l])
  {
    if n > 0 {
      KeptPositionsSpec(n - 1, shown);
    }
  }

  /** `values.filter((_, i) => shown.includes(i))`. */
  function FilterByPosition(values: seq<Value>, shown: seq<int>): seq<Value> {
    if values == [] then []
    else
      var last := |values| - 1;
      FilterByPosition(values[..last], shown) + (if last in shown then [values[last]] else [])
  }

  /**
   * The filter keeps exactly the values whose position is listed, in their original
   * order: the k-th kept value is the value at the k-th listed position.
   */
  lemma {:induction false} FilterByPositionSelects(values: seq<Value>, shown: seq<int>)
    ensures var ps := KeptPositions(|values|, shown);
            FilterByPosition(values, shown) == seq(|ps|, k requires 0 <= k < |ps| => values[ps[k]])
  {
    if values != [] {
      var last := |values| - 1;
      FilterByPositionSelects(values[..last], shown);
      var ps := KeptPositions(|values|, shown);
      var ps' := KeptPositions(last, shown);
      assert ps == ps' + (if last in shown then [last] else []);
      assert forall k :: 0 <= k < |ps'| ==> values[..last][ps'[k]] == values[ps'[k]];
    }
  }

  /** The values processText works on: all of them unless the shown-column list is non-empty. */
  function KeepShown(values: seq<Value>, shown: seq<int>): (kept: seq<Value>)
    ensures shown == [] ==> kept == values
  {
    if |shown| > 0 then FilterByPosition(values, shown) else values
  }

  /**
   * With a non-empty list the kept values are those at the listed positions, in
   * order, and none other; with an empty list every value is kept, the id and the
   * creation time included.
   */
  lemma KeepShownCharacterised(values: seq<Value>, shown: seq<int>)
    ensures shown == [] ==> KeepShown(values, shown) == values
    ensures shown != [] ==>
      var ps := KeptPositions(|values|, shown);
      KeepShown(values, shown) == seq(|ps|, k requires 0 <= k < |ps| => values[ps[k]])
  {
    FilterByPositionSelects(values, shown);
  }

  // ---------------------------------------------------------------------------
  // Line assembly

  /**
   * The optional furigana step: the converted text when furigana is on, Kuroshiro is
   * ready and the conversion succeeds; the text unchanged otherwise.
   */
  function Transliterate(text: string, isFurigana: bool, kuroshiro: Option<Converter>): (r: string)
    ensures r == text || (isFurigana && kuroshiro.Some? && kuroshiro.value(text) == Some(r))
    ensures kuroshiro.Some? && kuroshiro.value(text).None? ==> r == text
    ensures isFurigana && kuroshiro.Some? && kuroshiro.value(text).Some? ==> r == kuroshiro.value(text).value
  {
    if isFurigana && kuroshiro.Some? then
      match kuroshiro.value(text)
      case Some(converted) => converted
      case None => text
    else text
  }

  /** `${id}` for `id = Object.values(row)[0]`. */
  function IdText(values: seq<Value>): string {
    if |values| > 0 then ValueToString(values[0]) else "undefined"
  }

  /**
   * What processText displays for one row: in break-line mode one line per kept
   * value, in order, each transliterated on its own; otherwise the single line
   * `{id}. ` followed by the kept values joined by the separator, transliterated once.
   */
  ghost predicate DisplaysRow(row: Row, shown: seq<int>, cfg: StickyConfig, kuroshiro: Option<Converter>, lines: seq<string>) {
    var values := Values(row);
    var kept := KeepShown(values, shown);
    if cfg.isBreakLine then
      |lines| == |kept|
      && forall k :: 0 <= k < |kept| ==> lines[k] == Transliterate(ValueToString(kept[k]), cfg.isFurigana, kuroshiro)
    else
      lines == [Transliterate(IdText(values) + ". " + JoinValues(kept, cfg.splitedBy), cfg.isFurigana, kuroshiro)]
  }

  /** The body of processText once a row has been found. */
  method AssembleLines(row: Row, shown: seq<int>, cfg: StickyConfig, kuroshiro: Option<Converter>)
    returns (lines: seq<string>)
    ensures DisplaysRow(row, shown, cfg, kuroshiro, lines)
    ensures cfg.isBreakLine ==> |lines| == |KeepShown(Values(row), shown)|
    ensures !cfg.isBreakLine ==> |lines| == 1
  {
    var arrayValues := Values(row);
    var id := IdText(arrayValues);
    arrayValues := KeepShown(arrayValues, shown);
    lines := [];
    if cfg.isBreakLine {
      var k := 0;
      while k < |arrayValues|
        invariant 0 <= k <= |arrayValues|
        invariant |lines| == k
        invariant forall m :: 0 <= m < k ==>
          lines[m] == Transliterate(ValueToString(arrayValues[m]), cfg.isFurigana, kuroshiro)
      {
        var text := ValueToString(arrayValues[k]);
        text := Transliterate(text, cfg.isFurigana, kuroshiro);
        lines := lines + [text];
        k := k + 1;
      }
    } else {
      var text := id + ". " + JoinValues(arrayValues, cfg.splitedBy);
      text := Transliterate(text, cfg.isFurigana, kuroshiro);
      lines := [text];
    }
  }

  // ---------------------------------------------------------------------------
  // The page state

  /** `interval.current`, with the record count and order the timer callback captured. */
  datatype Timer = Timer(handle: nat, dataLength: nat, isRandom: bool, period: int)

  class Overlay {
    /** The rows selectData returned. */
    var data: seq<Row>
    var counter: int
    var interval: Option<Timer>
    /** The handles of the interval timers the host is running for this page. */
    var running: set<nat>
    var nextHandle: nat
    var shownColumns: seq<int>
    var displayLines: seq<string>
    /** Whether the last run of the interval effect left its `pauseInterval` cleanup behind. */
    var hasCleanup: bool

    /** At most one timer runs, and it is the one `interval.current` holds. */
    ghost predicate Valid()
      reads this
    {
      && counter >= 0
      && (interval.None? ==> running == {})
      && (interval.Some? ==> running == {interval.value.handle} && interval.value.handle < nextHandle)
    }

    constructor ()
      ensures Valid()
      ensures data == [] && counter == 0 && interval.None? && shownColumns == [] && displayLines == []
      ensures !hasCleanup
    {
      data, counter, interval, running, nextHandle := [], 0, None, {}, 1;
      shownColumns, displayLines, hasCleanup := [], [], false;
    }

    /**
     * The mount effect reading SHOWN_COLUMNS: `stored` is the stored string (None when
     * absent) and `parse` is JSON.parse (None when it throws); any failure leaves [].
     */
    method LoadShownColumns(stored: Option<string>, parse: string -> Option<seq<int>>)
      modifies this`shownColumns
      ensures shownColumns ==
        (if stored.Some? && stored.value != "" && parse(stored.value).Some? then parse(stored.value).value else [])
    {
      var columns: seq<int> := [];
      if stored.Some? && stored.value != "" {
        var parsed := parse(stored.value);
        if parsed.Some? {
          columns := parsed.value;
        }
      }
      shownColumns := columns;
    }

    /** `setData` with the rows of the newly selected database; the counter is not reset. */
    method SetData(rows: seq<Row>)
      modifies this`data
      ensures data == rows
    {
      data := rows;
    }

    /** `startInterval`: clears the running timer, if any, then starts one new timer. */
    method StartInterval(cfg: StickyConfig)
      requires Valid()
      modifies this`interval, this`running, this`nextHandle
      ensures Valid()
      ensures interval == Some(Timer(old(nextHandle), |data|, cfg.isRandom, cfg.interval))
      ensures running == {old(nextHandle)}
    {
      if interval.Some? {
        running := running - {interval.value.handle};
      }
      var handle := nextHandle;
      nextHandle := nextHandle + 1;
      running := running + {handle};
      interval := Some(Timer(handle, |data|, cfg.isRandom, cfg.interval));
    }

    /** `pauseInterval` (also the mouse-enter handler): no timer is left and the counter stays. */
    method PauseInterval()
      requires Valid()
      modifies this`interval, this`running
      ensures Valid()
      ensures interval.None? && running == {}
    {
      if interval.Some? {
        running := running - {interval.value.handle};
        interval := None;
      }
    }

    /**
     * One firing of the running timer. `r` is what Math.random() returns when the
     * order is random. The record count is the one captured when the timer started.
     */
    method Tick(r: real)
      requires Valid() && interval.Some? && 0.0 <= r < 1.0
      modifies this`counter
      ensures Valid()
      ensures counter == (if interval.value.isRandom then RandomCounter(r, interval.value.dataLength)
                          else SequentialNext(old(counter), interval.value.dataLength))
      ensures interval.value.dataLength > 0 ==> counter < interval.value.dataLength
    {
      var timer := interval.value;
      if timer.isRandom {
        counter := RandomCounter(r, timer.dataLength);
      } else {
        counter := SequentialNext(counter, timer.dataLength);
      }
    }

    /**
     * The effect on the record count and timing settings, run when one of them changed:
     * React first runs the cleanup the previous run returned, which pauses the timer,
     * and a new timer is started, with a new cleanup, only for non-empty data.
     */
    method IntervalEffect(cfg: StickyConfig)
      requires Valid()
      modifies this`interval, this`running, this`nextHandle, this`hasCleanup
      ensures Valid()
      ensures |data| > 0 ==> interval == Some(Timer(old(nextHandle), |data|, cfg.isRandom, cfg.interval)) && hasCleanup
      ensures |data| == 0 && old(hasCleanup) ==> interval.None? && running == {} && !hasCleanup
      ensures |data| == 0 && !old(hasCleanup) ==> interval == old(interval) && running == old(running) && !hasCleanup
    {
      if hasCleanup {
        PauseInterval();
        hasCleanup := false;
      }
      if |data| > 0 {
        StartInterval(cfg);
        hasCleanup := true;
      }
    }

    /** `processText`: nothing changes without data or without a row at the counter. */
    method ProcessText(cfg: StickyConfig, kuroshiro: Option<Converter>)
      requires Valid()
      modifies this`displayLines
      ensures Valid()
      ensures |data| == 0 || counter >= |data| ==> displayLines == old(displayLines)
      ensures 0 <= counter < |data| ==> DisplaysRow(data[counter], shownColumns, cfg, kuroshiro, displayLines)
    {
      if |data| == 0 {
        return;
      }
      if counter >= |data| {
        return;
      }
      var lines := AssembleLines(data[counter], shownColumns, cfg, kuroshiro);
      displayLines := lines;
    }
  }
}
