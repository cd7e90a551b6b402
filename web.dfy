/** What the browser hands the pages: recorded audio and fetch outcomes. */
module Web {

  newtype Byte = x: int | 0 <= x < 256

  /** One `Blob` delivered by a recorder's `dataavailable` event. A `Blob`
      made of several chunks holds their bytes one after another
      (`Lists.Flatten`). */
  type Chunk = seq<Byte>

  /** How a `fetch` call ends: it rejects (network failure), resolves with a
      status outside 200-299 (`response.ok` false), or resolves ok with a
      JSON body. */
  datatype Fetch<T> = NetworkError | HttpError | Ok(data: T)
}
