/**
 * Range arithmetic shared by both fetch engines (src/utils/SeekableStream.ts and
 * src/utils/stream.ts): the 1 MiB request budget, the backpressure gate, the
 * `range` header and the sequence of requests a whole download makes.
 *
 * The header is `bytes=first-last` with an inclusive last-byte-pos, as in
 * section 14.1.2 of RFC 9110: a server answers with the bytes first..last, and
 * a last-byte-pos at or beyond the representation's length stands for its
 * final byte.
 */
module Ranges {
  import opened Common
  import opened Text

  /** `bytesPerRequestLimit`: 1 MiB. */
  const RequestLimit: nat := 1048576

  /** A byte-range request, both ends inclusive. */
  datatype ByteRange = ByteRange(first: nat, last: nat)

  /** A range request as issued: the URL it went to and the range it asked for. */
  datatype RangeRequest = RangeRequest(url: Url, range: ByteRange)

  /**
   * The backpressure signal: the output buffer is "sufficient" once its
   * unread length reaches the per-request budget.
   */
  predicate BufferSufficient(readableLength: nat) {
    readableLength >= RequestLimit
  }

  /** `Math.min(bytesReceived + bytesPerRequestLimit, fileSize)`. */
  function RangeEnd(received: nat, size: nat): (end: nat)
    ensures end <= size && end <= received + RequestLimit
    ensures end == size || end == received + RequestLimit
  {
    if received + RequestLimit <= size then received + RequestLimit else size
  }

  /** The range the next request asks for, once `received` bytes are in. */
  function NextRange(received: nat, size: nat): (r: ByteRange)
    requires received < size
    ensures r.first == received && received < r.last <= size
    ensures r.last - r.first <= RequestLimit
  {
    ByteRange(received, RangeEnd(received, size))
  }

  /**
   * The gate of SeekableStream's tick: a range request is started only when
   * no request holds the lock, the buffer is below the budget and bytes remain.
   */
  predicate ShouldRequest(locked: bool, readableLength: nat, received: nat, size: nat) {
    !locked && !BufferSufficient(readableLength) && received < size
  }

  /** The `range` request header for a byte range. */
  function RangeHeader(r: ByteRange): (h: string)
    ensures StartsWith(h, "bytes=")
  {
    "bytes=" + Decimal(r.first) + "-" + Decimal(r.last)
  }

  /** Reads a `bytes=first-last` header back; None for anything else. */
  function ParseRangeHeader(h: string): (r: Option<ByteRange>)
  {
    if !StartsWith(h, "bytes=") then None
    else
      var spec := h[6..];
      var dash := FirstIndex(spec, '-');
      if dash == |spec| then None
      else
        var a, b := spec[..dash], spec[dash + 1..];
        if a == [] || b == [] || !IsDigits(a) || !IsDigits(b) then None
        else Some(ByteRange(DecimalValue(a), DecimalValue(b)))
  }

  /** Every header the engines send reads back as the range it was built from. */
  lemma RangeHeaderRoundTrip(r: ByteRange)
    ensures ParseRangeHeader(RangeHeader(r)) == Some(r)
  {
    var a, b := Decimal(r.first), Decimal(r.last);
    var h := RangeHeader(r);
    assert h == "bytes=" + (a + ['-'] + b);
    var spec := h[6..];
    assert spec == a + ['-'] + b;
    assert '-' !in a by {
      forall k | 0 <= k < |a| ensures a[k] != '-' {
        assert '0' <= a[k] <= '9';
      }
    }
    FirstIndexAfter(a, '-', b);
    assert spec[..|a|] == a;
    assert spec[|a| + 1..] == b;
    DecimalRoundTrip(r.first);
    DecimalRoundTrip(r.last);
  }

  /**
   * How many bytes a server that follows section 14.1.2 of RFC 9110 sends for
   * `r` on a representation of `size` bytes: first..min(last, size - 1).
   */
  function ServedLength(r: ByteRange, size: nat): (n: nat)
    requires r.first < size && r.first <= r.last
    ensures 1 <= n <= r.last - r.first + 1
    ensures r.first + n <= size
    ensures r.last < size ==> n == r.last - r.first + 1
    ensures r.last >= size ==> r.first + n == size
  {
    (if r.last < size then r.last else size - 1) - r.first + 1
  }

  /**
   * The ranges a session requests, from `received` bytes on, when every
   * request succeeds, the server serves each range in full and the size does
   * not change: each request starts where the previous body ended.
   */
  function Schedule(received: nat, size: nat): seq<ByteRange>
    decreases size - received
  {
    if received >= size then []
    else
      var r := NextRange(received, size);
      [r] + Schedule(received + ServedLength(r, size), size)
  }

  /** A range that starts inside the resource and asks for at most 1 MiB + 1 bytes. */
  predicate Bounded(r: ByteRange, from: nat, size: nat) {
    from <= r.first < r.last <= size && r.last - r.first <= RequestLimit
  }

  predicate AllBounded(rs: seq<ByteRange>, from: nat, size: nat) {
    forall i :: 0 <= i < |rs| ==> Bounded(rs[i], from, size)
  }

  /** Total number of bytes served for a schedule. */
  function ServedTotal(rs: seq<ByteRange>, size: nat): nat
    requires AllBounded(rs, 0, size)
  {
    if rs == [] then 0 else ServedLength(rs[0], size) + ServedTotal(rs[1..], size)
  }

  /** Every range of the schedule lies within the resource and asks for at most 1 MiB + 1 bytes. */
  lemma {:induction false} ScheduleBounds(received: nat, size: nat)
    ensures AllBounded(Schedule(received, size), received, size)
    decreases size - received
  {
    if received < size {
      var r := NextRange(received, size);
      var next := received + ServedLength(r, size);
      var s, t := Schedule(received, size), Schedule(next, size);
      assert s == [r] + t;
      ScheduleBounds(next, size);
      forall i | 0 <= i < |s| ensures Bounded(s[i], received, size) {
        if i > 0 {
          assert s[i] == t[i - 1];
          assert Bounded(t[i - 1], next, size);
        }
      }
    }
  }

  /**
   * The schedule neither overlaps nor leaves gaps: it starts at `received`
   * and every range begins one past the previous range's last byte.
   */
  lemma {:induction false} ScheduleContiguous(received: nat, size: nat)
    requires received < size
    ensures var s := Schedule(received, size);
      && |s| > 0 && s[0].first == received
      && (forall i :: 0 <= i < |s| - 1 ==> s[i + 1].first == s[i].last + 1)
    decreases size - received
  {
    var r := NextRange(received, size);
    var next := received + ServedLength(r, size);
    var s, t := Schedule(received, size), Schedule(next, size);
    assert s == [r] + t;
    if next < size {
      ScheduleContiguous(next, size);
      assert r.last < size;
      forall i | 0 <= i < |s| - 1 ensures s[i + 1].first == s[i].last + 1 {
        if i > 0 {
          assert s[i] == t[i - 1] && s[i + 1] == t[i];
        }
      }
    } else {
      assert t == [];
    }
  }

  /**
   * The bytes served for the schedule add up to exactly the bytes that were
   * missing, and its last range reaches the resource's final byte.
   */
  lemma {:induction false} ScheduleComplete(received: nat, size: nat)
    requires received < size
    ensures var s := Schedule(received, size);
      && |s| > 0
      && s[|s| - 1].last >= size - 1
      && AllBounded(s, 0, size)
      && ServedTotal(s, size) == size - received
    decreases size - received
  {
    ScheduleBounds(received, size);
    assert AllBounded(Schedule(received, size), 0, size) by {
      var s := Schedule(received, size);
      forall i | 0 <= i < |s| ensures Bounded(s[i], 0, size) {
        assert Bounded(s[i], received, size);
      }
    }
    var r := NextRange(received, size);
    var next := received + ServedLength(r, size);
    var s, t := Schedule(received, size), Schedule(next, size);
    assert s == [r] + t;
    assert s[1..] == t;
    if next < size {
      ScheduleComplete(next, size);
      assert s[|s| - 1] == t[|t| - 1];
    } else {
      assert t == [];
      assert ServedTotal(t, size) == 0;
    }
  }

  /**
   * A 3 MiB resource is fetched in exactly three requests,
   * bytes=0-1048576, bytes=1048577-2097153 and bytes=2097154-3145728.
   */
  lemma ThreeMiBSchedule()
    ensures Schedule(0, 3 * RequestLimit) ==
      [ByteRange(0, 1048576), ByteRange(1048577, 2097153), ByteRange(2097154, 3145728)]
  {
    var size := 3 * RequestLimit;
    var r0 := ByteRange(0, 1048576);
    var r1 := ByteRange(1048577, 2097153);
    var r2 := ByteRange(2097154, 3145728);
    assert Schedule(3145728, size) == [];
    assert Schedule(2097154, size) == [r2] + Schedule(3145728, size);
    assert Schedule(1048577, size) == [r1] + Schedule(2097154, size);
    assert Schedule(0, size) == [r0] + Schedule(1048577, size);
  }
}
