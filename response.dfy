/**
 * The decoded shape of a Loki `query_range` answer: `data.result` is a list of
 * streams, each with its label set and its `[timestamp, line]` pairs.
 */
module Response {

  /** One `[timestamp, line]` pair; the timestamp is nanoseconds as decimal text. */
  datatype Value = Value(timestamp: string, line: string)

  /** One element of `data.result`. */
  datatype Stream = Stream(labels: map<string, string>, values: seq<Value>)
}
