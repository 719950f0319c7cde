/** agent/upstream_hold.go: ramBlock, which keeps the upstream from starting where the RAM has no room for it. */
module RamCheck {
  import opened Common
  import opened OllamaWatch

  /** memoryFact: RAM in GiB. */
  datatype Memory = Memory(totalGiB: real, availableGiB: real)

  function GiB(bytes: nat): real { bytes as real / 1073741824.0 }

  /** ramBlock: None when nothing speaks against starting the upstream. */
  function RamBlock(maxPercent: int, needBytes: nat, mem: Option<Memory>): Option<Blocked> {
    if maxPercent <= 0 || needBytes == 0 || mem.None? || mem.value.totalGiB <= 0.0 then None
    else
      var m, need := mem.value, GiB(needBytes);
      if m.totalGiB - m.availableGiB + need <= m.totalGiB * maxPercent as real / 100.0 then None
      else Some(Blocked(m.availableGiB, m.totalGiB, need, maxPercent))
  }

  /** There is something to check: a limit, a need that was learned, and a reading. */
  predicate Checkable(maxPercent: int, needBytes: nat, mem: Option<Memory>) {
    maxPercent > 0 && needBytes > 0 && mem.Some? && mem.value.totalGiB > 0.0
  }

  /** What stays available once the upstream took its need, in bytes, is at least the part of the RAM that the limit keeps free. */
  predicate LeavesFree(maxPercent: int, needBytes: nat, m: Memory) {
    100.0 * (m.availableGiB * 1073741824.0 - needBytes as real) >= (100 - maxPercent) as real * (m.totalGiB * 1073741824.0)
  }

  /** The reason for the router: the readings, the need and the limit. */
  predicate Tells(b: Blocked, maxPercent: int, needBytes: nat, m: Memory) {
    && b.availableGiB == m.availableGiB && b.totalGiB == m.totalGiB
    && b.needGiB * 1073741824.0 == needBytes as real && b.limitPercent == maxPercent
  }

  /** The start is refused exactly if there is something to check and too little would stay free; the refusal tells what it was
      decided on. */
  lemma RefusedIff(maxPercent: int, needBytes: nat, mem: Option<Memory>)
    ensures var b := RamBlock(maxPercent, needBytes, mem);
      && (b.Some? <==> Checkable(maxPercent, needBytes, mem) && !LeavesFree(maxPercent, needBytes, mem.value))
      && (b.Some? ==> Tells(b.value, maxPercent, needBytes, mem.value))
  {
    if Checkable(maxPercent, needBytes, mem) {
      var m, need := mem.value, GiB(needBytes);
      var gib := 1073741824.0;
      var used, most := m.totalGiB - m.availableGiB + need, m.totalGiB * maxPercent as real / 100.0;
      assert need * gib == needBytes as real;
      assert LeavesFree(maxPercent, needBytes, m) <==> used <= most by {
        assert 100.0 * (m.availableGiB * gib - needBytes as real) == 100.0 * gib * (m.availableGiB - need);
        assert (100 - maxPercent) as real * (m.totalGiB * gib) == 100.0 * gib * (m.totalGiB - most);
      }
    }
  }

  /** More available RAM, a higher limit or a smaller need never turns an acceptance into a refusal. */
  lemma MoreRoomNeverRefuses(maxPercent: int, higher: int, needBytes: nat, less: nat, m: Memory, roomier: Memory)
    requires 0 < maxPercent <= higher && less <= needBytes
    requires roomier.totalGiB == m.totalGiB && m.availableGiB <= roomier.availableGiB
    requires RamBlock(higher, less, Some(roomier)).Some?
    ensures RamBlock(maxPercent, needBytes, Some(m)).Some?
  {
    assert m.totalGiB * maxPercent as real <= m.totalGiB * higher as real;
    assert GiB(less) <= GiB(needBytes);
  }
}
