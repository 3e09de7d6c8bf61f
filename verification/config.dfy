/** The bot's three secrets and the public channel link derived from one of
    them (index.js:6-14 and index.js:113). */
module Config {
  import opened Wrappers

  datatype Config = Config(botToken: string, channelId: string, apiKey: string)

  /** JavaScript truthiness of an environment variable: neither unset nor
      the empty string. */
  predicate Present(v: Option<string>) {
    v.Some? && v.value != ""
  }

  /** Start-up validation: the bot only starts when all three variables are
      present; otherwise the process exits before any connection is made
      (modelled as `None`). */
  function LoadConfig(token: Option<string>, channel: Option<string>, key: Option<string>): (r: Option<Config>)
    ensures r.Some? <==> Present(token) && Present(channel) && Present(key)
    ensures r.Some? ==> r.value.botToken == token.value && r.value.channelId == channel.value
                        && r.value.apiKey == key.value
    ensures r.Some? ==> r.value.botToken != "" && r.value.channelId != "" && r.value.apiKey != ""
  {
    if !Present(token) || !Present(channel) || !Present(key) then None
    else Some(Config(token.value, channel.value, key.value))
  }

  /** JavaScript `s.slice(1)`: everything but the first character, and the
      empty string for the empty string. */
  function DropFirst(s: string): (r: string)
    ensures |s| > 0 ==> [s[0]] + r == s
    ensures |s| == 0 ==> r == ""
  {
    if |s| == 0 then "" else s[1..]
  }

  const LinkPrefix := "https://t.me/"

  /** The "Join Channel" URL: the link prefix followed by the channel
      identifier with its first character removed. */
  function JoinUrl(channelId: string): (url: string)
    ensures |channelId| > 0 ==> url == LinkPrefix + channelId[1..]
    ensures |channelId| > 0 ==> |url| == |LinkPrefix| + |channelId| - 1
  {
    LinkPrefix + DropFirst(channelId)
  }

  /** The first character is dropped whatever it is: for a handle `@name`
      the link is `https://t.me/name`, and for any other first character
      that character is lost just the same. */
  lemma JoinUrlDropsFirstCharacter(first: char, rest: string)
    ensures JoinUrl([first] + rest) == LinkPrefix + rest
    ensures first != '@' ==> JoinUrl([first] + rest) != LinkPrefix + [first] + rest
  {
    assert ([first] + rest)[1..] == rest;
    if first != '@' {
      assert |LinkPrefix + rest| < |LinkPrefix + [first] + rest|;
    }
  }
}
