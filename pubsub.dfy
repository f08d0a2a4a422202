/**
 * Two helpers of the pillar utils package: the goroutine-ID parse of a
 * stack-trace header and the guarded datastore-config lookup.
 */
module PubSub {
  import opened Wrappers
  import opened Text

  // -------------------------------------------------------- GetGoRoutineID

  /** "goroutine " */
  const GoroutinePrefix: seq<Byte> := [103, 111, 114, 111, 117, 116, 105, 110, 101, 32]

  lemma GoroutinePrefixText()
    ensures GoroutinePrefix == Ascii("goroutine ")
  {
    AsciiIs("goroutine ", GoroutinePrefix);
  }

  /** runtime.Stack writes at most this many bytes of the trace. */
  const StackBufferSize: nat := 32

  const Space: Byte := ' ' as int

  /** The text after its leading '+' or '-', if it has one. */
  function Unsigned(s: seq<Byte>): (u: seq<Byte>)
    ensures |s| > 0 && (s[0] == '+' as int || s[0] == '-' as int) ==> u == s[1..]
    ensures !(|s| > 0 && (s[0] == '+' as int || s[0] == '-' as int)) ==> u == s
  {
    if |s| > 0 && (s[0] == '+' as int || s[0] == '-' as int) then s[1..] else s
  }

  /** What strconv.Atoi accepts: an optional sign, then at least one decimal digit and nothing else. */
  predicate IsNumber(s: seq<Byte>)
  {
    |Unsigned(s)| > 0 && AllDigits(Unsigned(s))
  }

  /**
   * ParseUint's range error: the leading digits (after the sign) exceed
   * 64 bits. ParseUint reads digit by digit and stops with the range error at
   * the first digit that overflows, before it reaches any non-digit behind.
   */
  predicate Overflows(s: seq<Byte>)
  {
    var d := Unsigned(s);
    var k := DigitPrefixLength(d);
    k > 0 && DecimalValue(d[..k]) > ULongMax
  }

  /**
   * strconv.Atoi with its error dropped. A syntax error gives 0; a range
   * error gives the int limit on the side of the sign, as ParseInt returns
   * it, even when a non-digit follows the overflowing digits.
   */
  function Atoi(s: seq<Byte>): (r: int)
    ensures IsLong(r)
    ensures Overflows(s) ==> |s| > 0 && r == if s[0] == '-' as int then LongMin else LongMax
    ensures !IsNumber(s) && !Overflows(s) ==> r == 0
    ensures IsNumber(s) && s[0] != '-' as int ==>
              r == if DecimalValue(Unsigned(s)) <= LongMax then DecimalValue(Unsigned(s)) else LongMax
    ensures IsNumber(s) && s[0] == '-' as int ==>
              r == if DecimalValue(Unsigned(s)) <= -LongMin then -(DecimalValue(Unsigned(s)) as int) else LongMin
    ensures AllDigits(s) && |s| > 0 && DecimalValue(s) <= LongMax ==> r == DecimalValue(s)
  {
    var digits := Unsigned(s);
    var k := DigitPrefixLength(digits);
    var negative := |s| > 0 && s[0] == '-' as int;
    assert AllDigits(digits) ==> k == |digits| && digits[..k] == digits;
    if k > 0 && DecimalValue(digits[..k]) > ULongMax then (if negative then LongMin else LongMax)
    else if |digits| == 0 || k < |digits| then 0
    else
      assert digits[..k] == digits;
      var v: int := DecimalValue(digits);
      if negative then (if v > -LongMin then LongMin else -v)
      else (if v > LongMax then LongMax else v)
  }

  /**
   * A digit run too long for 64 bits followed by a non-digit is a range
   * error, not a syntax error: Atoi gives the limit of the sign's side.
   */
  lemma OverflowBeforeNonDigit(digits: seq<Byte>, tail: seq<Byte>)
    requires AllDigits(digits) && DecimalValue(digits) > ULongMax
    requires tail == [] || !IsDigit(tail[0])
    ensures Atoi(digits + tail) == LongMax
    ensures Atoi(['-' as int] + digits + tail) == LongMin
  {
    UnsignedOverflowIsMax(digits, tail);
    SignedOverflowIsMin(digits, tail);
  }

  /** The unsigned half of OverflowBeforeNonDigit. */
  lemma UnsignedOverflowIsMax(digits: seq<Byte>, tail: seq<Byte>)
    requires AllDigits(digits) && DecimalValue(digits) > ULongMax
    requires tail == [] || !IsDigit(tail[0])
    ensures Atoi(digits + tail) == LongMax
  {
    DigitsThenTailOverflow(digits, tail);
    AtoiOfOverflow(digits + tail);
  }

  /** The '-' half of OverflowBeforeNonDigit. */
  lemma SignedOverflowIsMin(digits: seq<Byte>, tail: seq<Byte>)
    requires AllDigits(digits) && DecimalValue(digits) > ULongMax
    requires tail == [] || !IsDigit(tail[0])
    ensures Atoi(['-' as int] + digits + tail) == LongMin
  {
    var s := digits + tail;
    DigitsThenTailOverflow(digits, tail);
    SignedOverflow(s);
    assert ['-' as int] + digits + tail == ['-' as int] + s;
    AtoiOfOverflow(['-' as int] + s);
  }

  /** Atoi's range-error case on its own, so that the callers need not unfold the others. */
  lemma AtoiOfOverflow(s: seq<Byte>)
    requires Overflows(s)
    ensures |s| > 0 && Atoi(s) == if s[0] == '-' as int then LongMin else LongMax
  {
  }

  /** The digit run is the whole digit prefix, so the unsigned text overflows. */
  lemma DigitsThenTailOverflow(digits: seq<Byte>, tail: seq<Byte>)
    requires AllDigits(digits) && DecimalValue(digits) > ULongMax
    requires tail == [] || !IsDigit(tail[0])
    ensures Overflows(digits + tail) && IsDigit((digits + tail)[0])
  {
    assert digits != [];
    var s := digits + tail;
    assert s[..|digits|] == digits;
    DigitPrefixLengthIs(s, |digits|);
    assert s[0] == digits[0];
    assert Unsigned(s) == s;
  }

  /** A '-' in front of an overflowing digit text keeps it overflowing. */
  lemma SignedOverflow(s: seq<Byte>)
    requires Overflows(s) && |s| > 0 && IsDigit(s[0])
    ensures Overflows(['-' as int] + s)
  {
    assert Unsigned(s) == s;
    assert Unsigned(['-' as int] + s) == s;
  }

  /** The part of the trace that runtime.Stack copies into the 32-byte buffer. */
  function StackBuffer(trace: seq<Byte>): (buf: seq<Byte>)
    ensures |buf| <= StackBufferSize && |buf| <= |trace| && buf == trace[..|buf|]
    ensures |trace| <= StackBufferSize ==> buf == trace
  {
    if |trace| <= StackBufferSize then trace else trace[..StackBufferSize]
  }

  /** The number between the first "goroutine " of buf and the next space, or 0. */
  function ParseGoroutineHeader(buf: seq<Byte>): (id: int)
    ensures IsLong(id)
    ensures IndexOf(buf, GoroutinePrefix) < 0 ==> id == 0
    ensures var i := IndexOf(buf, GoroutinePrefix);
            i >= 0 ==> (forall k :: i + |GoroutinePrefix| <= k < |buf| ==> buf[k] != Space) ==> id == 0
    ensures var i := IndexOf(buf, GoroutinePrefix);
            i >= 0 ==> var rest := buf[i + |GoroutinePrefix|..];
                       var j := IndexOfElem(rest, Space);
                       j >= 0 ==> id == Atoi(rest[..j])
  {
    var i := IndexOf(buf, GoroutinePrefix);
    if i < 0 then 0
    else
      var rest := buf[i + |GoroutinePrefix|..];
      var j := IndexOfElem(rest, Space);
      if j < 0 then 0
      else
        assert rest[j] == buf[i + |GoroutinePrefix| + j];
        Atoi(rest[..j])
  }

  /** GetGoRoutineID for the goroutine whose stack trace is `trace`. */
  function GetGoRoutineID(trace: seq<Byte>): (id: int)
    ensures id == ParseGoroutineHeader(StackBuffer(trace))
  {
    ParseGoroutineHeader(StackBuffer(trace))
  }

  /** An int64 is printed with at most 19 digits. */
  lemma LongDigits(n: nat)
    requires n <= LongMax
    ensures |DecimalDigits(n)| <= 19
  {
    assert Pow10(10) == 10_000_000_000;
    assert Pow10(19) == 10_000_000_000_000_000_000;
    DecimalDigitsLength(n, 19);
  }

  /** The first space after a run of digits is the one that ends it. */
  lemma SpaceAfterDigits(digits: seq<Byte>, tail: seq<Byte>)
    requires AllDigits(digits)
    requires |tail| > |digits| && tail[..|digits| + 1] == digits + [Space]
    ensures IndexOfElem(tail, Space) == |digits|
  {
    assert tail[|digits|] == Space;
    assert forall k :: 0 <= k < |digits| ==> tail[k] == digits[k];
  }

  /** After a prefix p at the front of buf, a run of digits ends at the first space. */
  lemma DigitsAfterPrefix(buf: seq<Byte>, p: seq<Byte>, digits: seq<Byte>)
    requires AllDigits(digits)
    requires |buf| >= |p| + |digits| + 1
    requires buf[..|p| + |digits| + 1] == p + digits + [Space]
    ensures IndexOf(buf, p) == 0
    ensures IndexOfElem(buf[|p|..], Space) == |digits| && buf[|p|..][..|digits|] == digits
  {
    assert p + digits + [Space] == p + (digits + [Space]);
    PrefixOfConcat(buf, p, digits + [Space]);
    assert OccursAt(buf, p, 0);
    var tail := buf[|p|..];
    SpaceAfterDigits(digits, tail);
    assert tail[..|digits|] == digits;
  }

  /** A buffer that starts with "goroutine <digits> " yields the value of the digits. */
  lemma ParseHeaderAtStart(buf: seq<Byte>, digits: seq<Byte>)
    requires AllDigits(digits) && |digits| > 0 && DecimalValue(digits) <= LongMax
    requires |buf| >= |GoroutinePrefix| + |digits| + 1
    requires buf[..|GoroutinePrefix| + |digits| + 1] == GoroutinePrefix + digits + [Space]
    ensures ParseGoroutineHeader(buf) == DecimalValue(digits)
  {
    DigitsAfterPrefix(buf, GoroutinePrefix, digits);
    assert Atoi(digits) == DecimalValue(digits);
  }

  /** The header the Go runtime writes, "goroutine <id> [...", is read back as <id>. */
  lemma GoroutineIdRoundTrip(n: nat, rest: seq<Byte>)
    requires n <= LongMax
    ensures GetGoRoutineID(GoroutinePrefix + DecimalDigits(n) + [Space] + rest) == n
  {
    var digits := DecimalDigits(n);
    LongDigits(n);
    DecimalRoundTrip(n);
    var head := GoroutinePrefix + digits + [Space];
    var buf := StackBuffer(head + rest);
    assert |GoroutinePrefix| == 10;
    assert buf[..|head|] == head;
    ParseHeaderAtStart(buf, digits);
  }

  // -------------------------------------------------- LookupDatastoreConfig

  /**
   * LookupDatastoreConfig over a subscription whose Get is `get`: the nil
   * UUID is refused before the subscription is asked; a failed Get is
   * wrapped; otherwise the stored configuration is returned (as a copy:
   * configurations are values here).
   */
  function LookupDatastoreConfig<C>(get: string -> Result<C>, dsID: Uuid): (r: Result<C>)
    ensures dsID == NilUuid ==> r == Err("lookupDatastoreConfig(" + UuidString(NilUuid) + "): No datastore ID")
    ensures dsID != NilUuid && get(UuidString(dsID)).Err? ==>
              r == Err("lookupDatastoreConfig(" + UuidString(dsID) + ") error: " + get(UuidString(dsID)).error)
    ensures dsID != NilUuid && get(UuidString(dsID)).Ok? ==> r == get(UuidString(dsID))
  {
    if dsID == NilUuid then
      Err("lookupDatastoreConfig(" + UuidString(dsID) + "): No datastore ID")
    else
      match get(UuidString(dsID))
      case Err(e) => Err("lookupDatastoreConfig(" + UuidString(dsID) + ") error: " + e)
      case Ok(cfg) => Ok(cfg)
  }

  /** The nil UUID gives the same error whatever the subscription holds: it is never queried. */
  lemma NilUuidIsNotLookedUp<C>(get1: string -> Result<C>, get2: string -> Result<C>)
    ensures LookupDatastoreConfig(get1, NilUuid) == LookupDatastoreConfig(get2, NilUuid)
    ensures LookupDatastoreConfig(get1, NilUuid).Err?
  {
  }
}
