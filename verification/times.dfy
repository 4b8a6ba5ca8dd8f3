/**
 Timestamps are opaque here: a time is an abstract instant, and reading one from text
 is an oracle given the layout string and the raw text, as Go's `time.Parse` is.
 */
module Times {
  import opened Results

  /** An instant, numbered from Go's zero time; its calendar meaning is not modelled. */
  datatype Time = Time(instant: int)

  /** The value a time field holds when nothing was assigned to it. */
  const ZeroTime: Time := Time(0)

  /** `time.Parse(layout, text)`: the instant, or `None` when the text does not fit the layout. */
  type TimeParser = (string, string) -> Option<Time>
}
