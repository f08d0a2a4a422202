/**
 * The cgroup (v1 memory controller) helpers of the memory monitor: reading
 * memory.limit_in_bytes, memory.usage_in_bytes and the total_cache line of
 * memory.stat, the threshold test of the event thread, adjusting the limit
 * by a number of megabytes, and checking that a cgroup can be monitored.
 *
 * Files are inputs: what open/read/fgets return is given to each operation.
 * strtoudec and convert_mb_to_bytes_signed (util.c) are parameters: their
 * bodies are not part of this model.
 */
module Cgroups {
  import opened Wrappers
  import opened Text

  /** What open(2) followed by one read(2) of a whole small file gives. */
  datatype ReadOutcome = OpenFails | ReadFails | Contents(data: seq<Byte>)

  /** strtoudec(str, &error): the value, or None when it sets error. */
  type DecParser = seq<Byte> -> Option<ULong>

  const TwoTo64: int := 0x1_0000_0000_0000_0000

  /** The conversion of a (mathematical) integer to unsigned long: reduction modulo 2^64. */
  function ToULong(x: int): (u: ULong)
    ensures (u - x) % TwoTo64 == 0
    ensures 0 <= x <= ULongMax ==> u == x
  {
    x % TwoTo64
  }

  // ------------------------------------------------ cgroup_get_memory_limit

  /**
   * The limit the text of memory.limit_in_bytes denotes: the value of its
   * leading decimal digits, or None when there are none or the value does
   * not fit an unsigned long.
   */
  function LimitOf(data: seq<Byte>): (r: Option<ULong>)
    ensures r.Some? <==> DigitPrefixLength(data) > 0 && DecimalValue(data[..DigitPrefixLength(data)]) <= ULongMax
    ensures r.Some? ==> r.value == DecimalValue(data[..DigitPrefixLength(data)])
  {
    var digits := data[..DigitPrefixLength(data)];
    if digits == [] || DecimalValue(digits) > ULongMax then None else Some(DecimalValue(digits))
  }

  /**
   * The loop of cgroup_get_memory_limit over str_limit[0..nread): the first
   * byte that is not a decimal digit is overwritten by NUL and the loop stops.
   */
  method CutAtFirstNonDigit(buf: array<Byte>, nread: nat)
    requires nread <= buf.Length
    modifies buf
    ensures var k := DigitPrefixLength(old(buf[..nread]));
            buf[..] == if k < nread then old(buf[..])[k := Nul] else old(buf[..])
  {
    var i := 0;
    while i < nread && IsDigit(buf[i])
      invariant 0 <= i <= nread
      invariant AllDigits(buf[..nread][..i])
      invariant buf[..] == old(buf[..])
    {
      i := i + 1;
    }
    DigitPrefixLengthIs(buf[..nread], i);
    if i < nread {
      buf[i] := Nul;
    }
  }

  /** What strtoul(str, &endptr, 10) does with a string of decimal digits. */
  datatype Strtoul = Strtoul(value: ULong, consumed: nat, erange: bool)

  function StrtoulDigits(s: seq<Byte>): (r: Strtoul)
    requires AllDigits(s)
    ensures r.consumed == |s|
    ensures r.erange <==> DecimalValue(s) > ULongMax
    ensures r.erange ==> r.value == ULongMax
    ensures !r.erange ==> r.value == DecimalValue(s)
  {
    if DecimalValue(s) > ULongMax then Strtoul(ULongMax, |s|, true) else Strtoul(DecimalValue(s), |s|, false)
  }

  /** sizeof(str_limit). */
  const LimitBufferSize: nat := 256

  /** How many bytes read(fd, &str_limit, sizeof(str_limit)) returns, as written. */
  function LimitReadCount(data: seq<Byte>): (n: nat)
    ensures n <= LimitBufferSize && n <= |data|
    ensures |data| >= LimitBufferSize ==> n == LimitBufferSize
  {
    if |data| < LimitBufferSize then |data| else LimitBufferSize
  }

  /**
   * As written, a file of 256 bytes or more fills str_limit, and the
   * terminator str_limit[nread] is stored one past its end.
   */
  lemma TerminatorOverrunsBuffer(data: seq<Byte>)
    requires |data| >= LimitBufferSize
    ensures !(LimitReadCount(data) < LimitBufferSize)
  {
  }

  /** The bytes read with room kept for the terminator, as cgroup_get_memory_usage reads. */
  function LimitText(data: seq<Byte>): (text: seq<Byte>)
    ensures |text| < LimitBufferSize && text <= data
    ensures |data| < LimitBufferSize ==> text == data
  {
    if |data| < LimitBufferSize then data else data[..LimitBufferSize - 1]
  }

  /**
   * cgroup_get_memory_limit: 0 and the limit, or -1. read(2) is asked for
   * one byte less than the buffer holds, so the terminator stays inside it.
   * errno is taken to be clear before the call.
   */
  method GetMemoryLimit(file: ReadOutcome) returns (status: int, limit: ULong)
    ensures status == 0 || status == -1
    ensures status == 0 <==> file.Contents? && LimitOf(LimitText(file.data)).Some?
    ensures status == 0 ==> limit == LimitOf(LimitText(file.data)).value
  {
    if !file.Contents? {
      return -1, 0;
    }
    var data := LimitText(file.data);
    var nread := |data|;
    if nread == 0 {
      return -1, 0;
    }
    // str_limit[nread..] beyond the terminator is never read.
    var buf := new Byte[LimitBufferSize](i requires 0 <= i < LimitBufferSize => if i < nread then data[i] else 0);
    assert buf[..nread] == data;
    buf[nread] := Nul;
    CutAtFirstNonDigit(buf, nread);
    var k := DigitPrefixLength(data);
    assert buf[..k] == data[..k];
    assert buf[k] == Nul;
    assert Nul !in buf[..k] by {
      forall j | 0 <= j < k ensures buf[..k][j] != Nul {
        assert IsDigit(data[..k][j]);
      }
    }
    CStringEndsAt(buf[..], k);
    var str := CString(buf[..]);
    var conv := StrtoulDigits(str);
    limit := conv.value;
    if conv.erange && conv.value == ULongMax {
      return -1, limit;
    } else if conv.consumed == 0 {
      return -1, limit;
    }
    status := 0;
  }

  // ------------------------------------------------ cgroup_get_memory_usage

  /** read(2) of at most sizeof(str_usage) - 1 bytes. */
  const UsageReadSize: nat := 255

  /**
   * cgroup_get_memory_usage: the value strtoudec finds in the (NUL-terminated)
   * bytes read, and 0 when the file cannot be opened, nothing can be read or
   * the text does not parse.
   */
  function GetMemoryUsage(file: ReadOutcome, strtoudec: DecParser): (usage: ULong)
    ensures !file.Contents? || file.data == [] ==> usage == 0
    ensures file.Contents? && file.data != [] ==>
              var read := file.data[..if |file.data| < UsageReadSize then |file.data| else UsageReadSize];
              usage == match strtoudec(CString(read)) case None => 0 case Some(v) => v
  {
    match file
    case OpenFails => 0
    case ReadFails => 0
    case Contents(data) =>
      var nread := if |data| < UsageReadSize then |data| else UsageReadSize;
      if nread == 0 then 0
      else
        match strtoudec(CString(data[..nread]))
        case None => 0
        case Some(v) => v
  }

  // ------------------------------------------------- cgroup_get_total_cache

  const TotalCacheKey: seq<Byte> := [116, 111, 116, 97, 108, 95, 99, 97, 99, 104, 101]  // "total_cache"

  lemma TotalCacheKeyText()
    ensures TotalCacheKey == Ascii("total_cache")
  {
    AsciiIs("total_cache", TotalCacheKey);
  }

  /** strncmp(line, "total_cache", 11) == 0 for the string fgets stored. */
  predicate IsTotalCacheLine(line: seq<Byte>)
  {
    var c := CString(line);
    |c| >= |TotalCacheKey| && c[..|TotalCacheKey|] == TotalCacheKey
  }

  /**
   * The lines of memory.stat as successive fgets calls store them (at most
   * 255 bytes each, newline included). The first line that matches must
   * extend past "total_cache" (line + 12 must lie within what fgets stored);
   * the lines after it are never looked at.
   */
  predicate WellFormedStat(lines: seq<seq<Byte>>)
  {
    lines == []
    || (if IsTotalCacheLine(lines[0]) then |lines[0]| >= |TotalCacheKey| + 1 else WellFormedStat(lines[1..]))
  }

  /** The value on the first total_cache line, 0 when there is none or it does not parse. */
  function TotalCacheOf(lines: seq<seq<Byte>>, strtoudec: DecParser): (v: ULong)
    requires WellFormedStat(lines)
    ensures v != 0 ==> exists i :: 0 <= i < |lines| && IsTotalCacheLine(lines[i]) && |lines[i]| > |TotalCacheKey|
                                   && strtoudec(CString(lines[i][|TotalCacheKey| + 1..])) == Some(v)
  {
    if lines == [] then 0
    else if IsTotalCacheLine(lines[0]) then
      match strtoudec(CString(lines[0][|TotalCacheKey| + 1..])) case None => 0 case Some(v) => v
    else
      var v := TotalCacheOf(lines[1..], strtoudec);
      assert forall k :: 0 <= k < |lines| - 1 ==> lines[1..][k] == lines[k + 1];
      v
  }

  /** The first total_cache line decides, whatever follows it. */
  lemma {:induction false} FirstTotalCacheLine(lines: seq<seq<Byte>>, j: nat, strtoudec: DecParser)
    requires WellFormedStat(lines) && j < |lines| && IsTotalCacheLine(lines[j])
    requires forall i :: 0 <= i < j ==> !IsTotalCacheLine(lines[i])
    ensures |lines[j]| > |TotalCacheKey|
            && TotalCacheOf(lines, strtoudec)
               == match strtoudec(CString(lines[j][|TotalCacheKey| + 1..])) case None => 0 case Some(v) => v
  {
    if j > 0 {
      var tail := lines[1..];
      assert forall i :: 0 <= i < |tail| ==> tail[i] == lines[i + 1];
      FirstTotalCacheLine(tail, j - 1, strtoudec);
    }
  }

  /** A file without a total_cache line yields 0. */
  lemma {:induction false} NoTotalCacheLine(lines: seq<seq<Byte>>, strtoudec: DecParser)
    requires forall i :: 0 <= i < |lines| ==> !IsTotalCacheLine(lines[i])
    ensures WellFormedStat(lines) && TotalCacheOf(lines, strtoudec) == 0
  {
    if lines != [] {
      assert forall i :: 0 <= i < |lines| - 1 ==> lines[1..][i] == lines[i + 1];
      NoTotalCacheLine(lines[1..], strtoudec);
    }
  }

  /** cgroup_get_total_cache: the fgets loop, stopping at the first total_cache line. */
  method GetTotalCache(file: Option<seq<seq<Byte>>>, strtoudec: DecParser) returns (totalCache: ULong)
    requires file.Some? ==> WellFormedStat(file.value)
    ensures file.None? ==> totalCache == 0
    ensures file.Some? ==> totalCache == TotalCacheOf(file.value, strtoudec)
  {
    totalCache := 0;
    if file.None? {
      return;
    }
    var lines := file.value;
    var i := 0;
    while i < |lines|
      invariant 0 <= i <= |lines|
      invariant WellFormedStat(lines[i..]) && TotalCacheOf(lines, strtoudec) == TotalCacheOf(lines[i..], strtoudec)
      invariant totalCache == 0
    {
      var line := lines[i];
      assert lines[i..][0] == line;
      if IsTotalCacheLine(line) {
        var startptr := CString(line[|TotalCacheKey| + 1..]);
        match strtoudec(startptr) {
          case None => totalCache := 0;
          case Some(v) => totalCache := v;
        }
        return;
      }
      assert lines[i..][1..] == lines[i + 1..];
      i := i + 1;
    }
  }

  // ----------------------------------------------------- the threshold test

  /**
   * The test of the event thread: usage - cache >= threshold, computed in
   * unsigned long, so a cache larger than the usage wraps to a huge value.
   */
  function ThresholdReached(usage: ULong, cache: ULong, threshold: ULong): (fire: bool)
    ensures cache <= usage ==> (fire <==> usage - cache >= threshold)
    ensures cache > usage ==> (fire <==> TwoTo64 + usage - cache >= threshold)
  {
    ToULong(usage - cache) >= threshold
  }

  /** The test as evidently intended: usage net of cache, never below zero. */
  function ThresholdReachedSaturating(usage: ULong, cache: ULong, threshold: ULong): (fire: bool)
    ensures fire <==> threshold == 0 || usage >= cache + threshold
  {
    (if usage >= cache then usage - cache else 0) >= threshold
  }

  /** As written, a cache bigger than the usage fires the event for any threshold below 2^63. */
  lemma ThresholdFiresWhenCacheExceedsUsage(usage: ULong, cache: ULong, threshold: ULong)
    requires usage < cache && cache - usage <= LongMax + 1 && threshold <= LongMax
    ensures ThresholdReached(usage, cache, threshold)
    ensures threshold > 0 ==> !ThresholdReachedSaturating(usage, cache, threshold)
  {
  }

  /** The two tests agree whenever the cache does not exceed the usage. */
  lemma ThresholdTestsAgree(usage: ULong, cache: ULong, threshold: ULong)
    requires cache <= usage
    ensures ThresholdReached(usage, cache, threshold) == ThresholdReachedSaturating(usage, cache, threshold)
  {
  }

  /** The intended test is monotone: more usage never turns the event off. */
  lemma SaturatingThresholdMonotone(u1: ULong, u2: ULong, cache: ULong, threshold: ULong)
    requires u1 <= u2 && ThresholdReachedSaturating(u1, cache, threshold)
    ensures ThresholdReachedSaturating(u2, cache, threshold)
  {
  }

  // --------------------------------------------- cgroup_adjust_memory_limit

  /** A C int. */
  predicate IsCInt(x: int) { -0x8000_0000 <= x <= 0x7FFF_FFFF }

  /**
   * The arithmetic of cgroup_adjust_memory_limit: a current limit above
   * LONG_MAX and a signed sum that overflows are refused; otherwise the value
   * "%lu" prints is current_limit + adjust_by_bytes as an unsigned long.
   */
  function NewLimit(current: ULong, adjustBytes: Long): (r: Option<ULong>)
    ensures r.Some? <==> current <= LongMax && IsLong(current + adjustBytes)
    ensures r.Some? && current + adjustBytes >= 0 ==> r.value == current + adjustBytes
    ensures r.Some? && current + adjustBytes < 0 ==> r.value == TwoTo64 + current + adjustBytes
  {
    if current > LongMax then None
    else if !IsLong(current + adjustBytes) then None
    else Some(ToULong(current + adjustBytes))
  }

  /** The new limit as evidently intended: a negative sum is refused as well. */
  function NewLimitChecked(current: ULong, adjustBytes: Long): (r: Option<ULong>)
    ensures r.Some? <==> current <= LongMax && 0 <= current + adjustBytes <= LongMax
    ensures r.Some? ==> r.value == current + adjustBytes
  {
    if current > LongMax then None
    else if !IsLong(current + adjustBytes) || current + adjustBytes < 0 then None
    else Some(current + adjustBytes)
  }

  /** Shrinking a 100 MiB limit by 200 MiB is accepted as written and sets a limit of almost 2^64. */
  lemma NegativeAdjustmentWraps()
    ensures NewLimit(100 * 1048576, -200 * 1048576) == Some(TwoTo64 - 100 * 1048576)
    ensures NewLimitChecked(100 * 1048576, -200 * 1048576) == None
  {
  }

  /** The checked arithmetic agrees with the code on every sum that is not negative. */
  lemma NewLimitCheckedAgrees(current: ULong, adjustBytes: Long)
    requires current + adjustBytes >= 0
    ensures NewLimitChecked(current, adjustBytes) == NewLimit(current, adjustBytes)
  {
  }

  /** What open(O_WRONLY) and write(2) of the new limit give. */
  datatype WriteOutcome = OpenForWriteFails | WriteFails | WriteDone

  /**
   * cgroup_adjust_memory_limit: convert is convert_mb_to_bytes_signed (None
   * when it fails), limitFile what reading the current limit finds, and out
   * what opening and writing the file give. `written` is what ends up in
   * memory.limit_in_bytes.
   */
  method AdjustMemoryLimit(adjustByMb: int, convert: int -> Option<Long>, limitFile: ReadOutcome, out: WriteOutcome)
    returns (ok: bool, written: Option<seq<Byte>>)
    requires IsCInt(adjustByMb)
    ensures ok <==> convert(adjustByMb).Some? && limitFile.Contents? && LimitOf(LimitText(limitFile.data)).Some?
                    && NewLimit(LimitOf(LimitText(limitFile.data)).value, convert(adjustByMb).value).Some?
                    && out == WriteDone
    ensures written.Some? <==> ok
    ensures ok ==> written == Some(DecimalDigits(NewLimit(LimitOf(LimitText(limitFile.data)).value,
                                                          convert(adjustByMb).value).value))
  {
    var adjustBytes := convert(adjustByMb);
    if adjustBytes.None? {
      return false, None;
    }
    var status, current := GetMemoryLimit(limitFile);
    if status != 0 {
      return false, None;
    }
    var newLimit := NewLimit(current, adjustBytes.value);
    if newLimit.None? {
      return false, None;
    }
    if out != WriteDone {
      return false, None;
    }
    ok, written := true, Some(DecimalDigits(newLimit.value));
  }

  /**
   * What is written is read back as the limit that was computed, with or
   * without a trailing newline: the "%lu" text and the limit parser are
   * inverse to each other.
   */
  lemma WrittenLimitReadsBack(v: ULong, rest: seq<Byte>)
    requires rest == [] || !IsDigit(rest[0])
    ensures LimitOf(DecimalDigits(v) + rest) == Some(v)
    ensures |DecimalDigits(v)| <= 20
  {
    DigitPrefixOfPrinted(v, rest);
    DecimalRoundTrip(v);
    assert Pow10(10) == 10000000000;
    assert Pow10(20) == 100000000000000000000;
    DecimalDigitsLength(v, 20);
  }

  /** After a successful adjustment, reading the limit again returns the new limit. */
  method AdjustThenRead(adjustByMb: int, convert: int -> Option<Long>, limitFile: ReadOutcome)
    returns (status: int, limit: ULong)
    requires IsCInt(adjustByMb)
    requires convert(adjustByMb).Some? && limitFile.Contents? && LimitOf(LimitText(limitFile.data)).Some?
    requires NewLimit(LimitOf(LimitText(limitFile.data)).value, convert(adjustByMb).value).Some?
    ensures status == 0 && limit == NewLimit(LimitOf(LimitText(limitFile.data)).value, convert(adjustByMb).value).value
  {
    var ok, written := AdjustMemoryLimit(adjustByMb, convert, limitFile, WriteDone);
    var v := NewLimit(LimitOf(LimitText(limitFile.data)).value, convert(adjustByMb).value).value;
    WrittenLimitReadsBack(v, []);
    assert DecimalDigits(v) + [] == written.value;
    status, limit := GetMemoryLimit(Contents(written.value));
  }

  // ------------------------------------------------------- cgroup_validate

  function EventControlPath(prefix: string, name: string): string
  {
    prefix + "/" + name + "/cgroup.event_control"
  }

  function PressureLevelPath(prefix: string, name: string): string
  {
    prefix + "/" + name + "/memory.pressure_level"
  }

  /**
   * cgroup_validate: the cgroup directory, its cgroup.event_control and its
   * memory.pressure_level are opened in this order, stopping at the first
   * failure. Returns the status and the paths that were tried.
   */
  function Validate(prefix: string, name: string, canOpen: string -> bool): (r: (int, seq<string>))
    ensures r.0 == 0 <==> canOpen(prefix + "/" + name) && canOpen(EventControlPath(prefix, name))
                          && canOpen(PressureLevelPath(prefix, name))
    ensures r.0 == 0 || r.0 == 1
    ensures 1 <= |r.1| <= 3 && r.1[0] == prefix + "/" + name
    ensures forall i :: 0 <= i < |r.1| - 1 ==> canOpen(r.1[i])
    ensures r.0 == 1 ==> !canOpen(r.1[|r.1| - 1])
  {
    var dir := prefix + "/" + name;
    if !canOpen(dir) then (1, [dir])
    else if !canOpen(EventControlPath(prefix, name)) then (1, [dir, EventControlPath(prefix, name)])
    else if !canOpen(PressureLevelPath(prefix, name)) then
      (1, [dir, EventControlPath(prefix, name), PressureLevelPath(prefix, name)])
    else (0, [dir, EventControlPath(prefix, name), PressureLevelPath(prefix, name)])
  }
}
