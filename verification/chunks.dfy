/** Text that comes in chunks, and the text the chunks make up. */
module Chunks {
  function Joined(chunks: seq<string>): string {
    if chunks == [] then "" else Joined(chunks[..|chunks| - 1]) + chunks[|chunks| - 1]
  }
}
