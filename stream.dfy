/** The two streams the handlers deal with: the UI message stream they write
    to, and the language model's stream of deltas they read from. */
module DocumentStream {
  import opened Values

  /** A part written to the UI message stream. Every part the modelled code
      writes carries `transient: true`, so the flag is not represented. */
  datatype StreamPart =
    | DataKind(kind: string)
    | DataId(id: string)
    | DataTitle(title: string)
    | DataClear
    | DataFinish
    | DataTextDelta(text: string)

  /** The writer of the UI message stream (`dataStream`): the parts written
      so far, in order. Writing only ever appends. */
  class DataStream {
    var parts: seq<StreamPart>

    constructor ()
      ensures parts == []
    {
      parts := [];
    }

    /** `dataStream.write(part)`. */
    method Write(p: StreamPart)
      modifies this
      ensures parts == old(parts) + [p]
    {
      parts := parts + [p];
    }

    /** The writes made, in order, by code this model treats as opaque (a
        document handler called through the handler registry). */
    method WriteAll(ps: seq<StreamPart>)
      modifies this
      ensures parts == old(parts) + ps
    {
      parts := parts + ps;
    }
  }

  /** One part of the model's `fullStream`, after the word-chunking
      transform: a `text` part, or a part of any other type. */
  datatype Delta = Text(text: string) | NonText(partType: string)

  /** What a `streamText` call yields: its deltas in order, then either the
      end of the stream (`failure == None`) or a throw. */
  datatype ModelStream = ModelStream(deltas: seq<Delta>, failure: Option<string>)
}
