/** Values shared by the fetch engines, the request helpers and the player. */
module Common {

  datatype Option<+T> = None | Some(value: T) {
    function GetOr(default: T): T {
      match this
      case Some(v) => v
      case None => default
    }
  }

  datatype Result<+T, +E> = Ok(value: T) | Err(error: E)

  type Url = string

  newtype Byte = x: int | 0 <= x < 256

  /** One Buffer delivered by a response body or emitted by the output stream. */
  type Chunk = seq<Byte>

  /**
   * The metadata a provider resolves for one playable item (src/providers/base.ts).
   * `refreshInfoFunction` is not a field here: whenever the source awaits it,
   * the model takes the value it resolved to as a parameter.
   */
  datatype AudioInformation = AudioInformation(
    url: Url,
    fileSize: nat,
    duration: real,
    indexStart: nat,
    indexEnd: nat,
    bitrate: int,
    livestream: bool)

  /** Total number of bytes in a sequence of chunks. */
  function TotalLength(chunks: seq<Chunk>): (n: nat)
    ensures chunks == [] ==> n == 0
  {
    if chunks == [] then 0 else TotalLength(chunks[..|chunks| - 1]) + |chunks[|chunks| - 1]|
  }

  /** Appending a chunk grows the total by exactly that chunk's length. */
  lemma TotalLengthAppend(chunks: seq<Chunk>, c: Chunk)
    ensures TotalLength(chunks + [c]) == TotalLength(chunks) + |c|
  {
    assert (chunks + [c])[..|chunks + [c]| - 1] == chunks;
  }
}
