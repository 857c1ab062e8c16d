/** The shapes of a `genai.embed_content` response, as the scripts inspect them. */
module Gemini {

  /** A JSON number or list inside the response; the numbers themselves are never inspected. */
  datatype Value = Float(x: real) | List(items: seq<Value>)

  /**
   * The outcome of one `genai.embed_content` call: it raised, it answered without an
   * `'embedding'` key, or it answered with the list stored under that key.
   */
  datatype EmbedResponse = EmbedRaised | MissingEmbedding | EmbedReply(embedding: seq<Value>)
}
