/** The chunk table. */
module Chunks {

  const CHUNK_NONE: nat := 0xFFFF_FFFF
  const UNREACHABLE: nat := 0x7FFF_FFFF_FFFF_FFFF
  /** What a policy predicts from a link: the linked chunk, or -1 for none. */
  function Prediction(link: nat): int {
    if link == CHUNK_NONE then -1 else link
  }

  datatype ChunkState = Absent | Fetching | Resident

  datatype Chunk = Chunk(state: ChunkState, pin: nat, lastFaultSeq: nat)

  function ResidentSet(chunks: seq<Chunk>): set<nat> {
    set i | 0 <= i < |chunks| && chunks[i].state.Resident?
  }

  predicate Evictable(chunks: seq<Chunk>, i: nat) {
    i < |chunks| && chunks[i].state.Resident? && chunks[i].pin == 0
  }

  ghost predicate NoneEvictable(chunks: seq<Chunk>) {
    forall i :: 0 <= i < |chunks| ==> !Evictable(chunks, i)
  }
}
