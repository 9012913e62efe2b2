/** The records of the program: the messaging platform's objects (Channel,
    Message, History, AttachmentField, PostData) and the aggregated data the
    ranking works on (AggregatedData, Ranking, RankingDiff). */
module Types {
  import opened Wrappers

  /** A conversation channel: a stable id and a display name. */
  datatype Channel = Channel(id: string, name: string)

  /** A message; only the optional bot marker and subtype tag are modelled. */
  datatype Message = Message(botId: Option<string>, subtype: Option<string>)

  /** The body of a history response. */
  datatype History = History(messages: seq<Message>)

  /** One channel's valid messages within one day window. */
  datatype AggregatedData = AggregatedData(id: string, name: string, messages: seq<Message>) {
    /** `messages.length`, the count every ranking is by. */
    function Count(): nat {
      |messages|
    }
  }

  /** A channel with its rank on one day. */
  datatype Ranking = Ranking(channel: AggregatedData, rank: int)

  /** A ranking together with its movement since the previous day. */
  datatype RankingDiff = RankingDiff(channel: AggregatedData, rank: int, diff: int)

  /** A field of a posted attachment. */
  datatype AttachmentField = AttachmentField(title: Option<string>, value: Option<string>, short: Option<bool>)

  /** What is handed to the publisher. */
  datatype PostData = PostData(attachmentTitle: string, attachmentText: string, attachmentFields: seq<AttachmentField>)
}
