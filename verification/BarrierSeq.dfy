/**
  The bit-mask sequence of block/blk-barrier.c: which stages of a barrier are complete, which is next, and
  to which stage a request belongs.
 */
module BarrierSeq {

  // QUEUE_ORDSEQ_* and QUEUE_ORDERED_* of include/linux/blkdev.h
  const STARTED: bv8 := 0x01
  const DRAIN: bv8 := 0x02
  const PREFLUSH: bv8 := 0x04
  const BAR: bv8 := 0x08
  const POSTFLUSH: bv8 := 0x10
  const DONE: bv8 := 0x20

  const BY_DRAIN: bv8 := 0x01
  const BY_TAG: bv8 := 0x02
  const DO_PREFLUSH: bv8 := 0x10
  const DO_BAR: bv8 := 0x20
  const DO_POSTFLUSH: bv8 := 0x40
  const DO_FUA: bv8 := 0x80

  /** The values blk_queue_ordered accepts, apart from QUEUE_ORDERED_NONE: by drain or by tag, with a barrier request,
      and plain, with both flushes, or with a preflush and FUA. */
  predicate IsMode(m: bv8) {
    m in {0x21, 0x71, 0xB1, 0x22, 0x72, 0xB2}
  }

  /** A request. epoch counts the barriers queued before it, so that its ordered colour is the parity of epoch. Flush and
      proxy requests are the three that the queue itself owns. */
  datatype Rq =
    | Fs(id: nat, epoch: nat, barrier: bool, sectors: nat)
    | Special(id: nat)
    | PreFlushRq
    | BarRq
    | PostFlushRq
  {
    predicate IsStage() { PreFlushRq? || BarRq? || PostFlushRq? }
    /** blk_fs_request, which also holds for the proxy of the barrier */
    predicate IsFs() { Fs? || BarRq? }
    predicate IsBarrier() { (Fs? && barrier) || BarRq? }
  }

  /** blk_ordered_cur_seq: the lowest bit that is not set. */
  function CurSeq(ordseq: bv8): bv8 {
    if ordseq == 0 then 0
    else if ordseq & 0x01 == 0 then 0x01
    else if ordseq & 0x02 == 0 then 0x02
    else if ordseq & 0x04 == 0 then 0x04
    else if ordseq & 0x08 == 0 then 0x08
    else if ordseq & 0x10 == 0 then 0x10
    else if ordseq & 0x20 == 0 then 0x20
    else if ordseq & 0x40 == 0 then 0x40
    else 0x80
  }

  /** blk_ordered_req_seq, given the epoch of the original barrier. */
  function ReqSeq(rq: Rq, orig: nat): bv8 {
    match rq
    case PreFlushRq => PREFLUSH
    case BarRq => BAR
    case PostFlushRq => POSTFLUSH
    case Special(_) => DRAIN
    case Fs(_, e, _, _) => if e % 2 == orig % 2 then DRAIN else DONE
  }

  predicate Has(m: bv8, bit: bv8) { m & bit != 0 }

  /** What a sequence in progress looks like: started, at least one stage open, nothing above the stages. */
  predicate InProgress(ordseq: bv8) {
    Has(ordseq, STARTED) && ordseq < DONE && CurSeq(ordseq) != DONE
  }

  /** The current stage is the first open one: everything below it is complete. */
  lemma CurIsFirstOpen(ordseq: bv8)
    requires InProgress(ordseq)
    ensures CurSeq(ordseq) in {DRAIN, PREFLUSH, BAR, POSTFLUSH}
    ensures !Has(ordseq, CurSeq(ordseq))
    ensures CurSeq(ordseq) > DRAIN <==> Has(ordseq, DRAIN)
    ensures CurSeq(ordseq) > PREFLUSH <==> Has(ordseq, DRAIN) && Has(ordseq, PREFLUSH)
    ensures CurSeq(ordseq) > BAR <==> Has(ordseq, DRAIN) && Has(ordseq, PREFLUSH) && Has(ordseq, BAR)
    ensures CurSeq(ordseq) < DONE
  {}

  /** Completing open stages sets their bits and no others. */
  lemma CompleteBits(ordseq: bv8, seqs: bv8)
    requires Has(ordseq, STARTED) && ordseq < DONE && seqs < DONE
    ensures (ordseq | seqs) < DONE && Has(ordseq | seqs, STARTED)
    ensures Has(ordseq | seqs, DRAIN) <==> Has(ordseq, DRAIN) || Has(seqs, DRAIN)
    ensures Has(ordseq | seqs, PREFLUSH) <==> Has(ordseq, PREFLUSH) || Has(seqs, PREFLUSH)
    ensures Has(ordseq | seqs, BAR) <==> Has(ordseq, BAR) || Has(seqs, BAR)
    ensures Has(ordseq | seqs, POSTFLUSH) <==> Has(ordseq, POSTFLUSH) || Has(seqs, POSTFLUSH)
  {}

  /** The sequence is over exactly when no stage is open. */
  lemma DoneMeans(ordseq: bv8)
    requires Has(ordseq, STARTED) && ordseq < DONE
    ensures CurSeq(ordseq) == DONE <==>
      Has(ordseq, DRAIN) && Has(ordseq, PREFLUSH) && Has(ordseq, BAR) && Has(ordseq, POSTFLUSH)
  {}
}
