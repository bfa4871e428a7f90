/** Process identifiers: a domain number in the top 5 bits of a word, a process
    number in the other 59. */
module Pid {
  const MAX_DOMAINS := 5
  /** The bound of the numbers that the id map of a domain gives out. */
  const MAX_COUNTER: bv64 := 0x7ff_ffff_ffff_ffff

  function ToGid(pid: bv64): bv64 {
    pid >> 59
  }

  function ToPoff(pid: bv64): bv64 {
    (pid << 5) >> 5
  }

  function Make(poff: bv64, gid: bv64): bv64 {
    poff | (gid << 59)
  }

  /** Packing and unpacking: nothing of either part is lost. */
  lemma UnpackMake(poff: bv64, gid: bv64)
    requires poff < 0x800_0000_0000_0000 && gid < 32
    ensures ToGid(Make(poff, gid)) == gid && ToPoff(Make(poff, gid)) == poff
  {
  }

  lemma MakeUnpack(pid: bv64)
    ensures Make(ToPoff(pid), ToGid(pid)) == pid
    ensures ToPoff(pid) < 0x800_0000_0000_0000 && ToGid(pid) < 32
  {
  }

  /** `find_free_gid`: the first free domain number, 0 being kept for names and
      broadcasts; None stands for the fatal exit. */
  method FindFreeGid(taken: seq<bool>) returns (gid: nat)
    requires |taken| == MAX_DOMAINS
    ensures gid == 0 <==> forall g | 1 <= g < MAX_DOMAINS :: taken[g]
    ensures gid != 0 ==> gid < MAX_DOMAINS && !taken[gid] && forall g | 1 <= g < gid :: taken[g]
  {
    gid := 1;
    while gid < MAX_DOMAINS
      invariant 1 <= gid <= MAX_DOMAINS
      invariant forall g | 1 <= g < gid :: taken[g]
    {
      if !taken[gid] {
        return;
      }
      gid := gid + 1;
    }
    gid := 0;
  }

  /** The pid that `process_new` makes of a number of its id map and of its domain
      number is neither a name nor a broadcast, and leads back to both. */
  lemma ProcessPid(no: bv64, gid: bv64)
    requires 0 < no < MAX_COUNTER && 0 < gid < 5
    ensures var pid := Make(no, gid);
            ToGid(pid) == gid && ToPoff(pid) == no && ToGid(pid) != 0 && ToPoff(pid) != 0
  {
    UnpackMake(no, gid);
  }
}
