/** Names for what the components share. */
module Basics {
  type Tid = nat    // index of a thread
  type Block = nat  // address of a block

  datatype Ptr = Null | At(block: Block)

  /**
    What an enqueue can get when nothing interferes: `blocks` blocks from the pool, as many as
    `allowed` before the head is too far behind or the size limit is reached, and a larger index or not.
   */
  datatype Supply = Supply(blocks: nat, allowed: nat, canGrow: bool)
}
