/** The messaging-platform side: which messages count, the per-channel
    history aggregation, and the payload of the posted message
    (src/slack/index.ts). The HTTP requests are not modelled: the history
    endpoint is a function parameter. */
module Slack {
  import opened Wrappers
  import opened Seqs
  import opened Types
  import Settings

  const ThreadBroadcast: string := "thread_broadcast"

  /** `validMessage`: not posted by a bot, and either a plain message or a
      thread reply also sent to the channel. */
  function ValidMessage(message: Message): (ok: bool)
    ensures message.botId.Some? ==> !ok
    ensures message.botId.None? && message.subtype.None? ==> ok
    ensures message.botId.None? && message.subtype.Some? ==> (ok <==> message.subtype.value == "thread_broadcast")
  {
    if message.botId.Some? then false
    else if message.subtype.None? || message.subtype == Some(ThreadBroadcast) then true
    else false
  }

  /** The conversations.history response for a channel and an
      [oldest, latest] window. */
  type HistoryApi = (Channel, string, string) -> History

  /** `fetchHistory`: the fetched history with the invalid messages removed. */
  function FetchHistory(channel: Channel, oldest: string, latest: string, history: HistoryApi): (h: History)
    ensures var fetched := history(channel, oldest, latest).messages;
            && |h.messages| <= |fetched|
            && (forall m :: m in h.messages ==> ValidMessage(m))
            && (forall m :: m in fetched && ValidMessage(m) ==> m in h.messages)
            && (forall m :: multiset(h.messages)[m] == if ValidMessage(m) then multiset(fetched)[m] else 0)
  {
    var fetched := history(channel, oldest, latest).messages;
    FilterMultiset(ValidMessage, fetched);
    History(Filter(ValidMessage, fetched))
  }

  /** The messages kept from two consecutive parts of a history are the kept
      messages of each part, in order. */
  lemma ValidMessagesAppend(a: seq<Message>, b: seq<Message>)
    ensures Filter(ValidMessage, a + b) == Filter(ValidMessage, a) + Filter(ValidMessage, b)
  {
    FilterAppend(ValidMessage, a, b);
  }

  /** `getData`: one aggregated record per channel, in channel order. */
  method GetData(channels: seq<Channel>, oldest: string, latest: string, history: HistoryApi)
    returns (data: seq<AggregatedData>)
    ensures |data| == |channels|
    ensures forall i :: 0 <= i < |channels| ==>
              data[i] == AggregatedData(channels[i].id, channels[i].name,
                                        FetchHistory(channels[i], oldest, latest, history).messages)
  {
    data := [];
    for k := 0 to |channels|
      invariant |data| == k
      invariant forall j :: 0 <= j < k ==>
                  data[j] == AggregatedData(channels[j].id, channels[j].name,
                                            FetchHistory(channels[j], oldest, latest, history).messages)
    {
      var channel := channels[k];
      var h := FetchHistory(channel, oldest, latest, history);
      var aggregated := AggregatedData(channel.id, channel.name, h.messages);
      data := data + [aggregated];
    }
  }

  const AuthorName: string := "Hot Channels Bot"
  const AuthorLink: string := "https://github.com/yuki-yano/slack-hot-channel-deno"

  datatype Attachment = Attachment(
    color: string, authorName: string, authorLink: string,
    title: string, text: string, fields: seq<AttachmentField>)

  /** The JSON body of chat.postMessage. */
  datatype PostBody = PostBody(channel: string, username: string, iconEmoji: string, attachments: seq<Attachment>)

  /** The body `postMessage` sends: one attachment that shows the first
      `ranking_count` fields. */
  function PostMessageBody(post: PostData, settings: Settings.Settings): (body: PostBody)
    ensures body.channel == settings.postChannel && body.username == settings.userName
            && body.iconEmoji == settings.iconEmoji
    ensures |body.attachments| == 1
    ensures var at := body.attachments[0];
            && at.color == settings.color && at.authorName == AuthorName && at.authorLink == AuthorLink
            && at.title == post.attachmentTitle
            && at.text == post.attachmentText
            && at.fields <= post.attachmentFields
            && (settings.rankingCount >= 0 ==>
                  |at.fields| == if settings.rankingCount < |post.attachmentFields|
                                 then settings.rankingCount else |post.attachmentFields|)
  {
    PostBody(settings.postChannel, settings.userName, settings.iconEmoji,
             [Attachment(settings.color, AuthorName, AuthorLink, post.attachmentTitle, post.attachmentText,
                         SliceTo(post.attachmentFields, settings.rankingCount))])
  }
}
