/**
  Volume sizes: the int64 arithmetic that turns the bytes of a request into the
  GiB of a disk and back.  Go's `/` and `%` truncate towards zero and its int64
  wraps around; both are written out here.
 */
module Sizes {
  import opened Wrappers

  const MIN_INT64: int := -0x8000_0000_0000_0000
  const MAX_INT64: int := 0x7fff_ffff_ffff_ffff

  type int64 = x: int | -0x8000_0000_0000_0000 <= x < 0x8000_0000_0000_0000

  // The largest request, in bytes, that the driver can answer without overflow:
  // the largest multiple of 100 GiB below 2^63 bytes.
  const MAX_REQUEST: int64 := 8589934500 * 0x4000_0000

  // cloud.DefaultVolumeSize
  const DEFAULT_VOLUME_SIZE: int64 := 100 * 0x4000_0000

  // What an int64 holds after an operation whose exact result is `x`.
  function Wrap(x: int): int64 {
    if -0x8000_0000_0000_0000 <= x < 0x8000_0000_0000_0000 then x
    else (x + 0x8000_0000_0000_0000) % 0x1_0000_0000_0000_0000 - 0x8000_0000_0000_0000
  }

  // Go's `x / GiB`.
  function QuotGiB(x: int): int {
    if x >= 0 then x / 0x4000_0000 else -(-x / 0x4000_0000)
  }

  // Go's `x / 100`.
  function Quot100(x: int): int {
    if x >= 0 then x / 100 else -(-x / 100)
  }

  // util.roundUpSize with the only unit it is called with, a GiB.
  function RoundUpGiB(bytes: int64): int64 {
    QuotGiB(Wrap(Wrap(bytes + 0x4000_0000) - 1))
  }

  function RoundUpBytes(bytes: int64): int64 {
    Wrap(RoundUpGiB(bytes) * 0x4000_0000)
  }

  function BytesToGiB(bytes: int64): int64 {
    QuotGiB(bytes)
  }

  function GiBToBytes(gib: int64): int64 {
    Wrap(gib * 0x4000_0000)
  }

  // cloud.roundUpCapacity
  function RoundUpCapacity(gib: int64): int64 {
    if Wrap(gib - Wrap(Quot100(gib) * 100)) == 0 then gib
    else Wrap(Wrap(Quot100(gib) + 1) * 100)
  }

  // The size in GiB that CreateDisk, ResizeDisk and GetDiskByName ask for or
  // compare with, given the bytes the controller passes them.
  function DiskCapacity(bytes: int64): int64 {
    RoundUpCapacity(BytesToGiB(bytes))
  }

  // The whole chain from the required bytes of a request to the disk's size.
  function CapacityFor(required: int64): int64 {
    DiskCapacity(RoundUpBytes(required))
  }

  datatype CapacityRange = CapacityRange(required: int64, limit: int64)

  // The size check shared by CreateVolume (getVolSizeBytes) and
  // ControllerExpandVolume; None stands for the InvalidArgument answer.
  function SizeWithinLimit(range: CapacityRange): Option<int64> {
    var size := RoundUpBytes(range.required);
    if range.limit > 0 && range.limit < size then None else Some(size)
  }

  function VolSizeBytes(range: Option<CapacityRange>): Option<int64> {
    match range
    case None => Some(DEFAULT_VOLUME_SIZE)
    case Some(r) => SizeWithinLimit(r)
  }

  ghost predicate IsLeastCover(gib: int, required: int) {
    && gib % 100 == 0
    && required <= gib * 0x4000_0000
    && forall other: int :: other % 100 == 0 && required <= other * 0x4000_0000 ==> gib <= other
  }

  lemma WrapIsIdentity(x: int)
    requires MIN_INT64 <= x <= MAX_INT64
    ensures Wrap(x) == x
  {
  }

  // The first rounding step: exact while the sum fits an int64 (its wrap-around
  // by one is undone by the subtraction), negative when it does not.
  lemma RoundUpGiBValue(required: int64)
    requires 0 <= required
    ensures required + 0x3fff_ffff <= MAX_INT64 ==> RoundUpGiB(required) == (required + 0x3fff_ffff) / 0x4000_0000
    ensures MAX_INT64 < required + 0x3fff_ffff ==> -0x2_0000_0000 <= RoundUpGiB(required) < 0
  {
  }

  // For every request up to MAX_REQUEST, rounding to a GiB reaches the next GiB
  // and no further, and BytesToGiB loses nothing of it.
  lemma RoundUpBytesIsExact(required: int64)
    requires 0 <= required && required + 0x3fff_ffff <= MAX_INT64
    ensures RoundUpBytes(required) % 0x4000_0000 == 0
    ensures required <= RoundUpBytes(required) < required + 0x4000_0000
    ensures BytesToGiB(RoundUpBytes(required)) * 0x4000_0000 == RoundUpBytes(required)
  {
    RoundUpGiBValue(required);
    WrapIsIdentity(RoundUpGiB(required) * 0x4000_0000);
  }

  // RoundUpCapacity on anything BytesToGiB can give: the next multiple of 100
  // upwards, for negative sizes as well.
  lemma RoundUpCapacityIsCeiling(gib: int64)
    requires -0x2_0000_0000 <= gib <= 0x2_0000_0000
    ensures RoundUpCapacity(gib) % 100 == 0
    ensures gib <= RoundUpCapacity(gib)
    ensures gib >= 0 ==> RoundUpCapacity(gib) <= gib + 99
    ensures gib < 0 ==> RoundUpCapacity(gib) <= 100
  {
    var q := Quot100(gib);
    WrapIsIdentity(q * 100);
    WrapIsIdentity(gib - q * 100);
    WrapIsIdentity((q + 1) * 100);
  }

  // Every size the driver ever asks the cloud for is a multiple of 100 GiB, for
  // every int64 whatsoever, overflowing or negative ones included.
  lemma DiskCapacityIsMultiple(bytes: int64)
    ensures DiskCapacity(bytes) % 100 == 0
  {
    RoundUpCapacityIsCeiling(BytesToGiB(bytes));
  }

  // A capacity less than one unit above the request's GiB covers it best.
  lemma LeastCover(required: int, gib: int, cap: int)
    requires (gib - 1) * 0x4000_0000 < required <= gib * 0x4000_0000
    requires cap % 100 == 0 && gib <= cap <= gib + 99
    ensures IsLeastCover(cap, required)
  {
    forall other: int | other % 100 == 0 && required <= other * 0x4000_0000
      ensures cap <= other
    {
      assert gib <= other;
    }
  }

  // The composed chain: up to MAX_REQUEST the disk is the smallest whole number
  // of 100 GiB units that covers the request, and the bytes reported back are
  // exactly its size.
  lemma CapacityIsLeastCover(required: int64)
    requires 0 <= required <= MAX_REQUEST
    ensures IsLeastCover(CapacityFor(required), required)
    ensures GiBToBytes(CapacityFor(required)) == CapacityFor(required) * 0x4000_0000
  {
    RoundUpBytesIsExact(required);
    var gib := BytesToGiB(RoundUpBytes(required));
    RoundUpCapacityIsCeiling(gib);
    LeastCover(required, gib, CapacityFor(required));
    WrapIsIdentity(CapacityFor(required) * 0x4000_0000);
  }

  // Past MAX_REQUEST the answer is a number of bytes too small for the request.
  lemma OversizedReport(required: int64)
    requires MAX_REQUEST < required
    ensures GiBToBytes(CapacityFor(required)) < required
  {
    RoundUpGiBValue(required);
    var gib := RoundUpGiB(required);
    WrapIsIdentity(gib * 0x4000_0000);
    assert BytesToGiB(RoundUpBytes(required)) == gib;
    RoundUpCapacityIsCeiling(gib);
    if gib < 0 {
      WrapIsIdentity(CapacityFor(required) * 0x4000_0000);
    } else {
      assert 8589934501 <= gib <= 8589934591;
      assert CapacityFor(required) == 8589934600;
    }
  }

  // MAX_REQUEST is tight: a non-negative request is answered with at least the
  // bytes it asked for exactly when it does not exceed MAX_REQUEST.
  lemma ReportCoversRequestIff(required: int64)
    requires 0 <= required
    ensures required <= GiBToBytes(CapacityFor(required)) <==> required <= MAX_REQUEST
  {
    if required <= MAX_REQUEST {
      CapacityIsLeastCover(required);
    } else {
      OversizedReport(required);
    }
  }

  lemma CapacityNearBytes(bytes: int64)
    ensures bytes >= 0 ==> DiskCapacity(bytes) * 0x4000_0000 <= bytes + 99 * 0x4000_0000
    ensures -100 * 0x4000_0000 < bytes <= -0x4000_0000 ==> DiskCapacity(bytes) == 100
    ensures bytes < 0 && !(-100 * 0x4000_0000 < bytes <= -0x4000_0000) ==> DiskCapacity(bytes) <= 0
  {
    RoundUpCapacityIsCeiling(BytesToGiB(bytes));
  }

  // The limit is compared with the size before it is rounded to 100 GiB units, so
  // a disk may exceed a positive limit.  Over every int64 request that passes the
  // check, the excess stays within 99 GiB, except for the negative requests that
  // Go's truncating division rounds up to 100 GiB under a limit below 1 GiB.
  lemma LimitOvershootIsBoundedIff(range: CapacityRange)
    requires range.limit > 0 && SizeWithinLimit(range).Some?
    ensures CapacityFor(range.required) * 0x4000_0000 <= range.limit + 99 * 0x4000_0000
      <==> !(range.limit < 0x4000_0000 && -101 * 0x4000_0000 + 1 < range.required < -2 * 0x4000_0000 + 2)
  {
    CapacityNearBytes(RoundUpBytes(range.required));
    if range.required >= 0 {
      RoundUpBytesIsNear(range.required);
    } else {
      NegativeRoundUp(range.required);
    }
  }

  // A non-negative request is rounded up by less than a GiB, or overflows far below zero.
  lemma RoundUpBytesIsNear(required: int64)
    requires 0 <= required
    ensures RoundUpBytes(required) >= 0 || RoundUpBytes(required) <= -100 * 0x4000_0000
  {
    RoundUpGiBValue(required);
  }

  lemma NegativeRoundUp(required: int64)
    requires required < 0
    ensures RoundUpBytes(required) <= 0
    ensures RoundUpBytes(required) <= -0x4000_0000 <==> required < -2 * 0x4000_0000 + 2
    ensures -100 * 0x4000_0000 < RoundUpBytes(required) <==> -101 * 0x4000_0000 + 1 < required
  {
    var sum: int := required + 0x3fff_ffff;
    assert Wrap(Wrap(required + 0x4000_0000) as int - 1) == sum;
    WrapIsIdentity(QuotGiB(sum) * 0x4000_0000);
  }

  // The bound of 99 GiB is attained: 1 GiB allowed, 100 GiB given.
  lemma LimitOvershootIsAttained()
    ensures var range := CapacityRange(1, 0x4000_0000);
      && SizeWithinLimit(range).Some?
      && CapacityFor(range.required) * 0x4000_0000 == range.limit + 99 * 0x4000_0000
  {
  }

  // The specification's promise, a disk of at most the limit, is met by an
  // accepted request exactly when the limit leaves room for the whole 100 GiB
  // units that cover the required bytes.
  lemma LimitIsKeptIff(range: CapacityRange)
    requires 0 <= range.required <= MAX_REQUEST && range.limit > 0
    ensures SizeWithinLimit(range).Some? && CapacityFor(range.required) * 0x4000_0000 <= range.limit
      <==> exists units: int :: range.required <= units * 0x19_0000_0000 <= range.limit
  {
    var cap := CapacityFor(range.required);
    CapacityIsLeastCover(range.required);
    RoundUpBytesIsExact(range.required);
    RoundUpCapacityIsCeiling(BytesToGiB(RoundUpBytes(range.required)));
    if cap * 0x4000_0000 <= range.limit {
      var units := cap / 100;
      assert range.required <= units * 0x19_0000_0000 <= range.limit;
    }
    forall units: int | range.required <= units * 0x19_0000_0000 <= range.limit
      ensures cap * 0x4000_0000 <= range.limit
    {
      var other := units * 100;
      assert cap <= other;
    }
  }
}
