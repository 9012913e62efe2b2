/** Configuration: the settings file as read, its validation, the defaults,
    and the merge of the two (src/settings.ts). Channel filters are kept as
    their pattern strings. */
module Settings {
  import opened Wrappers

  /** The settings file; `None` is a key that is absent from it. */
  datatype SettingsJson = SettingsJson(
    postChannel: Option<string>,
    rankingCount: Option<int>,
    userName: Option<string>,
    iconEmoji: Option<string>,
    color: Option<string>,
    dateSwitchingHour: Option<int>,
    sidewayTrendEmoji: Option<string>,
    upTrendEmoji: Option<string>,
    downTrendEmoji: Option<string>,
    excludeChannels: Option<seq<string>>,
    includeChannels: Option<seq<string>>)

  /** The resolved settings. */
  datatype Settings = Settings(
    postChannel: string,
    rankingCount: int,
    userName: string,
    iconEmoji: string,
    color: string,
    dateSwitchingHour: int,
    sidewayTrendEmoji: string,
    upTrendEmoji: string,
    downTrendEmoji: string,
    excludeChannels: Option<seq<string>>,
    includeChannels: Option<seq<string>>)

  const DefaultRankingCount: int := 20
  const DefaultUserName: string := "hot-channels"
  const DefaultIconEmoji: string := ":tada:"
  const DefaultColor: string := "#95B88F"
  const DefaultDateSwitchingHour: int := 4
  const DefaultSidewayTrendEmoji: string := ":arrow_right:"
  const DefaultUpTrendEmoji: string := ":arrow_up:"
  const DefaultDownTrendEmoji: string := ":arrow_down:"

  const PostChannelMissing: string := "Post channel is not defined in settings"
  const BothFiltersDefined: string := "Both include_channels and exclude_channels are defined in settings"

  /** `getDefaultSettings`. */
  function GetDefaultSettings(): (s: Settings)
    ensures s.postChannel == "" && s.rankingCount == 20 && s.dateSwitchingHour == 4
    ensures s.userName == "hot-channels" && s.iconEmoji == ":tada:" && s.color == "#95B88F"
    ensures s.sidewayTrendEmoji == ":arrow_right:" && s.upTrendEmoji == ":arrow_up:"
            && s.downTrendEmoji == ":arrow_down:"
    ensures s.excludeChannels.None? && s.includeChannels.None?
  {
    Settings("", DefaultRankingCount, DefaultUserName, DefaultIconEmoji, DefaultColor,
             DefaultDateSwitchingHour, DefaultSidewayTrendEmoji, DefaultUpTrendEmoji,
             DefaultDownTrendEmoji, None, None)
  }

  /** `!settings.post_channel`: the key is absent or holds the empty string. */
  predicate PostChannelFalsy(json: SettingsJson) {
    json.postChannel.None? || json.postChannel.value == ""
  }

  /** `settings.include_channels && settings.exclude_channels`: both lists are
      present; an empty list is still truthy. */
  predicate BothFilters(json: SettingsJson) {
    json.includeChannels.Some? && json.excludeChannels.Some?
  }

  /** `validateSettings`: the post channel is checked first, then the filters. */
  function ValidateSettings(json: SettingsJson): (r: Outcome)
    ensures PostChannelFalsy(json) ==> r == Fail(PostChannelMissing)
    ensures !PostChannelFalsy(json) && BothFilters(json) ==> r == Fail(BothFiltersDefined)
    ensures r == Pass <==> json.postChannel.Some? && json.postChannel.value != ""
                           && (json.includeChannels.None? || json.excludeChannels.None?)
  {
    if PostChannelFalsy(json) then Fail(PostChannelMissing)
    else if BothFilters(json) then Fail(BothFiltersDefined)
    else Pass
  }

  /** `{ ...getDefaultSettings(), ...json }` with the two filter lists taken
      from the file (converted to patterns there). */
  function MergeSettings(json: SettingsJson): (s: Settings)
    ensures var d := GetDefaultSettings();
            && s.postChannel == json.postChannel.GetOr(d.postChannel)
            && s.rankingCount == json.rankingCount.GetOr(d.rankingCount)
            && s.userName == json.userName.GetOr(d.userName)
            && s.iconEmoji == json.iconEmoji.GetOr(d.iconEmoji)
            && s.color == json.color.GetOr(d.color)
            && s.dateSwitchingHour == json.dateSwitchingHour.GetOr(d.dateSwitchingHour)
            && s.sidewayTrendEmoji == json.sidewayTrendEmoji.GetOr(d.sidewayTrendEmoji)
            && s.upTrendEmoji == json.upTrendEmoji.GetOr(d.upTrendEmoji)
            && s.downTrendEmoji == json.downTrendEmoji.GetOr(d.downTrendEmoji)
            && s.excludeChannels == json.excludeChannels
            && s.includeChannels == json.includeChannels
  {
    var d := GetDefaultSettings();
    Settings(
      json.postChannel.GetOr(d.postChannel),
      json.rankingCount.GetOr(d.rankingCount),
      json.userName.GetOr(d.userName),
      json.iconEmoji.GetOr(d.iconEmoji),
      json.color.GetOr(d.color),
      json.dateSwitchingHour.GetOr(d.dateSwitchingHour),
      json.sidewayTrendEmoji.GetOr(d.sidewayTrendEmoji),
      json.upTrendEmoji.GetOr(d.upTrendEmoji),
      json.downTrendEmoji.GetOr(d.downTrendEmoji),
      json.excludeChannels,
      json.includeChannels)
  }

  /** `getSettings` after the file is read: validate, then merge. */
  function GetSettings(json: SettingsJson): (r: Result<Settings>)
    ensures r.Success? <==> ValidateSettings(json) == Pass
    ensures r.Failure? ==> r.error == ValidateSettings(json).error
    ensures r.Success? ==> r.value.postChannel != ""
    ensures r.Success? ==> r.value.includeChannels.None? || r.value.excludeChannels.None?
    ensures r.Success? ==> r.value == MergeSettings(json)
  {
    match ValidateSettings(json)
    case Fail(e) => Failure(e)
    case Pass => Success(MergeSettings(json))
  }

  /** A settings file that sets every key. */
  function ToJson(s: Settings): SettingsJson {
    SettingsJson(Some(s.postChannel), Some(s.rankingCount), Some(s.userName), Some(s.iconEmoji),
                 Some(s.color), Some(s.dateSwitchingHour), Some(s.sidewayTrendEmoji),
                 Some(s.upTrendEmoji), Some(s.downTrendEmoji), s.excludeChannels, s.includeChannels)
  }

  /** A file that sets every key overrides every default. */
  lemma MergeFullJson(s: Settings)
    ensures MergeSettings(ToJson(s)) == s
  {
  }

  /** A file that sets nothing but the post channel yields the defaults with
      that channel, and it is accepted exactly when the channel is non-empty. */
  lemma MergeOnlyPostChannel(channel: string)
    ensures var json := SettingsJson(Some(channel), None, None, None, None, None, None, None, None, None, None);
            && MergeSettings(json) == GetDefaultSettings().(postChannel := channel)
            && (GetSettings(json).Success? <==> channel != "")
  {
  }

  /** Resolved settings round-trip: writing them out as a file and resolving
      that file gives them back, provided they are valid. */
  lemma GetSettingsOfValid(s: Settings)
    requires s.postChannel != ""
    requires s.includeChannels.None? || s.excludeChannels.None?
    ensures GetSettings(ToJson(s)) == Success(s)
  {
  }
}
