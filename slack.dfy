/**
 * The Slack side of a release: rewriting a channel topic line by line
 * (`updateChannelTopic`) and the lazily filled channel cache it reads through
 * (`fetchChannels`, `getChannelTopic`, `setChannelTopic`).
 *
 * The workspace's channel listing is an input, and every `setTopic` request
 * is appended to a log as the channel id and the topic sent.
 */
module Slack {
  import opened Wrappers
  import opened Text

  /** A topic whose lines add up to this many UTF-16 code units or more is not set. */
  const TopicLengthLimit: nat := 250

  const NewLine: char := '\n'

  // ---------------------------------------------------------------------------
  // Topic rewriting
  // ---------------------------------------------------------------------------

  /** Some line of the topic contains the status to match. */
  predicate AnyMatches(lines: seq<string>, toMatch: string) {
    exists i | 0 <= i < |lines| :: Contains(lines[i], toMatch)
  }

  /** The `map` over the lines: a line containing the status to match becomes the replacement. */
  function Replaced(lines: seq<string>, toMatch: string, toReplace: string): (r: seq<string>)
    ensures |r| == |lines|
  {
    seq(|lines|, i requires 0 <= i < |lines| => if Contains(lines[i], toMatch) then toReplace else lines[i])
  }

  /** The lines of the new topic: the replaced lines, plus the replacement at the end when no line matched. */
  function RewrittenLines(topic: string, toMatch: string, toReplace: string): seq<string> {
    var lines := Split(topic, NewLine);
    var tokens := Replaced(lines, toMatch, toReplace);
    if AnyMatches(lines, toMatch) then tokens else tokens + [toReplace]
  }

  /**
   * The topic `updateChannelTopic` sets, if any: nothing for an undefined or
   * empty topic or for lines adding up to the limit; otherwise the lines
   * joined with newlines.
   */
  function NewTopic(topic: Option<string>, toMatch: string, toReplace: string): (r: Option<string>)
    ensures r.Some? <==>
      topic.Some? && topic.value != "" && TotalLength(RewrittenLines(topic.value, toMatch, toReplace)) < TopicLengthLimit
  {
    if topic.None? || topic.value == "" then None
    else
      var tokens := RewrittenLines(topic.value, toMatch, toReplace);
      if TotalLength(tokens) >= TopicLengthLimit then None else Some(Join(tokens, NewLine))
  }

  /**
   * The `map` with its `has_status` flag, then the `push`: the lines of the
   * new topic.
   */
  method RewriteLines(topic: string, toMatch: string, toReplace: string) returns (tokens: seq<string>)
    ensures tokens == RewrittenLines(topic, toMatch, toReplace)
  {
    var lines := Split(topic, NewLine);
    var hasStatus := false;
    tokens := [];
    for i := 0 to |lines|
      invariant tokens == Replaced(lines[..i], toMatch, toReplace)
      invariant hasStatus == AnyMatches(lines[..i], toMatch)
    {
      var token := lines[i];
      if Contains(token, toMatch) {
        hasStatus := true;
        token := toReplace;
      }
      tokens := tokens + [token];
      assert lines[..i + 1][i] == lines[i];
      assert forall k :: 0 <= k < i ==> lines[..i + 1][k] == lines[..i][k];
    }
    assert lines[..|lines|] == lines;
    if !hasStatus {
      tokens := tokens + [toReplace];
    }
  }

  /** The `reduce` summing the JavaScript lengths (UTF-16 code units) of the lines. */
  method LinesLength(tokens: seq<string>) returns (total: nat)
    ensures total == TotalLength(tokens)
  {
    total := 0;
    for i := 0 to |tokens|
      invariant total == TotalLength(tokens[..i])
    {
      total := total + Utf16Length(tokens[i]);
      TotalLengthSnoc(tokens[..i], tokens[i]);
      assert tokens[..i + 1] == tokens[..i] + [tokens[i]];
    }
    assert tokens[..|tokens|] == tokens;
  }

  /** Each line of the new topic is the replacement or a line of the old topic that did not match. */
  lemma RewrittenLinesShape(topic: string, toMatch: string, toReplace: string)
    ensures var lines := Split(topic, NewLine);
      var tokens := RewrittenLines(topic, toMatch, toReplace);
      && |tokens| == |lines| + (if AnyMatches(lines, toMatch) then 0 else 1)
      && (forall i :: 0 <= i < |lines| && Contains(lines[i], toMatch) ==> tokens[i] == toReplace)
      && (forall i :: 0 <= i < |lines| && !Contains(lines[i], toMatch) ==> tokens[i] == lines[i])
      && (!AnyMatches(lines, toMatch) ==> tokens[|lines|] == toReplace)
  {
  }

  /**
   * When the topic is set and the replacement holds no newline, splitting the
   * new topic gives back exactly the rewritten lines; its JavaScript length is
   * their total plus one newline between each two.
   */
  lemma NewTopicLines(topic: string, toMatch: string, toReplace: string)
    requires NewLine !in toReplace
    requires NewTopic(Some(topic), toMatch, toReplace).Some?
    ensures var t := NewTopic(Some(topic), toMatch, toReplace).value;
      var tokens := RewrittenLines(topic, toMatch, toReplace);
      && Split(t, NewLine) == tokens
      && Utf16Length(t) == TotalLength(tokens) + |tokens| - 1 < TopicLengthLimit + |tokens| - 1
  {
    var lines := Split(topic, NewLine);
    var tokens := RewrittenLines(topic, toMatch, toReplace);
    assert forall i :: 0 <= i < |tokens| ==> NewLine !in tokens[i];
    SplitJoin(tokens, NewLine);
    JoinLength(tokens, NewLine);
  }

  /**
   * A topic with no matching line, short enough, gets the replacement as a new
   * last line and is otherwise unchanged.
   */
  lemma UnmatchedTopicGetsNewLine(topic: string, toMatch: string, toReplace: string)
    requires topic != ""
    requires !AnyMatches(Split(topic, NewLine), toMatch)
    requires TotalLength(RewrittenLines(topic, toMatch, toReplace)) < TopicLengthLimit
    ensures NewTopic(Some(topic), toMatch, toReplace) == Some(topic + [NewLine] + toReplace)
  {
    var lines := Split(topic, NewLine);
    assert Replaced(lines, toMatch, toReplace) == lines;
    JoinSplit(topic, NewLine);
    JoinSnoc(lines, toReplace, NewLine);
  }

  /**
   * The limit counts UTF-16 code units: a one-line topic whose line matches,
   * replaced by 125 characters above U+FFFF, is not set, although it holds
   * only 125 characters.
   */
  lemma WideReplacementNotSet(topic: string, toMatch: string, toReplace: string)
    requires topic != "" && NewLine !in topic && Contains(topic, toMatch)
    requires |toReplace| == 125 && forall k | 0 <= k < |toReplace| :: toReplace[k] as int > 0xFFFF
    ensures NewTopic(Some(topic), toMatch, toReplace).None?
  {
    SplitNoSeparator(topic, NewLine);
    Utf16LengthPlanes(toReplace);
    var lines := Split(topic, NewLine);
    assert AnyMatches(lines, toMatch) by {
      assert lines[0] == topic;
    }
    assert RewrittenLines(topic, toMatch, toReplace) == [toReplace];
    assert [toReplace][1..] == [];
  }

  // ---------------------------------------------------------------------------
  // The channel cache
  // ---------------------------------------------------------------------------

  datatype SlackChannel = SlackChannel(id: string, name: string, topic: Option<string>)

  /** A channel as `conversations.list` reports it. */
  datatype ListedChannel = ListedChannel(id: string, name: string, topic: Option<string>)

  /** The cache after `fetchChannels` stored, in listing order, every listed channel with an id. */
  function Fetched(channels: map<string, SlackChannel>, listing: seq<ListedChannel>): map<string, SlackChannel>
    decreases |listing|
  {
    if listing == [] then channels
    else
      var before := Fetched(channels, listing[..|listing| - 1]);
      var c := listing[|listing| - 1];
      if c.id != "" then before[c.name := SlackChannel(c.id, c.name, c.topic)] else before
  }

  /** The listing entry `i` is the last one with an id that has the name `name`. */
  predicate LastListed(listing: seq<ListedChannel>, name: string, i: int) {
    && 0 <= i < |listing| && listing[i].id != "" && listing[i].name == name
    && forall j :: i < j < |listing| ==> listing[j].id == "" || listing[j].name != name
  }

  /** After a fetch, a name is cached when it was cached before or some listed channel with an id has it. */
  lemma {:induction false} FetchedKeys(channels: map<string, SlackChannel>, listing: seq<ListedChannel>, name: string)
    ensures name in Fetched(channels, listing) <==>
      name in channels || exists i :: 0 <= i < |listing| && listing[i].id != "" && listing[i].name == name
    decreases |listing|
  {
    if listing != [] {
      var init := listing[..|listing| - 1];
      FetchedKeys(channels, init, name);
      assert forall i :: 0 <= i < |init| ==> init[i] == listing[i];
    }
  }

  /** The last listing entry with an id and the name decides the cached channel. */
  lemma {:induction false} FetchedLast(channels: map<string, SlackChannel>, listing: seq<ListedChannel>, name: string, i: int)
    requires LastListed(listing, name, i)
    ensures name in Fetched(channels, listing)
    ensures Fetched(channels, listing)[name] == SlackChannel(listing[i].id, name, listing[i].topic)
    decreases |listing|
  {
    var last := |listing| - 1;
    if i < last {
      var init := listing[..last];
      assert listing[last].id == "" || listing[last].name != name;
      assert LastListed(init, name, i);
      FetchedLast(channels, init, name, i);
    }
  }

  /** A name that no listed channel with an id has keeps its cached channel. */
  lemma {:induction false} FetchedUntouched(channels: map<string, SlackChannel>, listing: seq<ListedChannel>, name: string)
    requires name in channels
    requires forall i :: 0 <= i < |listing| ==> listing[i].id == "" || listing[i].name != name
    ensures name in Fetched(channels, listing) && Fetched(channels, listing)[name] == channels[name]
    decreases |listing|
  {
    if listing != [] {
      var init := listing[..|listing| - 1];
      assert forall i :: 0 <= i < |init| ==> init[i] == listing[i];
      FetchedUntouched(channels, init, name);
    }
  }

  /** The cache as `getChannelTopic` leaves it: fetched only when the name was missing. */
  function CachedFor(channels: map<string, SlackChannel>, name: string, listing: seq<ListedChannel>): map<string, SlackChannel> {
    if name in channels then channels else Fetched(channels, listing)
  }

  /** `channels.get(name)?.topic`. */
  function TopicIn(channels: map<string, SlackChannel>, name: string): Option<string> {
    if name in channels then channels[name].topic else None
  }

  /** The `setTopic` request sent for `name`, when its cached channel has an id. */
  function TopicRequest(channels: map<string, SlackChannel>, name: string, topic: string): seq<(string, string)> {
    if name in channels && channels[name].id != "" then [(channels[name].id, topic)] else []
  }

  /** The Slack client's state: the channel cache, the number of listings fetched, the topics set. */
  class SlackWorkspace {
    var channels: map<string, SlackChannel>
    var fetches: nat
    var topicsSet: seq<(string, string)>

    constructor ()
      ensures channels == map[] && fetches == 0 && topicsSet == []
    {
      channels := map[];
      fetches := 0;
      topicsSet := [];
    }

    /** `fetchChannels`: one listing request, each channel with an id stored under its name. */
    method FetchChannels(listing: seq<ListedChannel>)
      modifies this
      ensures channels == Fetched(old(channels), listing)
      ensures fetches == old(fetches) + 1 && topicsSet == old(topicsSet)
    {
      fetches := fetches + 1;
      ghost var start := channels;
      for i := 0 to |listing|
        invariant channels == Fetched(start, listing[..i])
        invariant fetches == old(fetches) + 1 && topicsSet == old(topicsSet)
      {
        assert listing[..i + 1][..i] == listing[..i];
        var channel := listing[i];
        if channel.id != "" {
          channels := channels[channel.name := SlackChannel(channel.id, channel.name, channel.topic)];
        }
      }
      assert listing[..|listing|] == listing;
    }

    /** `getChannelTopic`: fetches the listing only when the name is not cached. */
    method GetChannelTopic(name: string, listing: seq<ListedChannel>) returns (topic: Option<string>)
      modifies this
      ensures channels == CachedFor(old(channels), name, listing)
      ensures fetches == old(fetches) + (if name in old(channels) then 0 else 1)
      ensures topicsSet == old(topicsSet)
      ensures topic == TopicIn(channels, name)
    {
      if name !in channels {
        FetchChannels(listing);
      }
      topic := if name in channels then channels[name].topic else None;
    }

    /** `setChannelTopic`: fetches the listing only when the name is not cached, then sends the topic if the channel has an id. */
    method SetChannelTopic(name: string, topic: string, listing: seq<ListedChannel>)
      modifies this
      ensures channels == CachedFor(old(channels), name, listing)
      ensures fetches == old(fetches) + (if name in old(channels) then 0 else 1)
      ensures topicsSet == old(topicsSet) + TopicRequest(channels, name, topic)
    {
      if name !in channels {
        FetchChannels(listing);
      }
      if name in channels && channels[name].id != "" {
        topicsSet := topicsSet + [(channels[name].id, topic)];
      }
    }

    /**
     * `updateChannelTopic`: reads the topic (fetching at most once), rewrites
     * it and, when the result is short enough, sends it.
     */
    method UpdateChannelTopic(name: string, toMatch: string, toReplace: string, listing: seq<ListedChannel>)
      modifies this
      ensures channels == CachedFor(old(channels), name, listing)
      ensures fetches == old(fetches) + (if name in old(channels) then 0 else 1)
      ensures var t := NewTopic(TopicIn(channels, name), toMatch, toReplace);
        topicsSet == old(topicsSet) + (if t.Some? then TopicRequest(channels, name, t.value) else [])
    {
      var topic := GetChannelTopic(name, listing);
      if topic.Some? && topic.value != "" {
        var tokens := RewriteLines(topic.value, toMatch, toReplace);
        var length := LinesLength(tokens);
        if length < TopicLengthLimit {
          SetChannelTopic(name, Join(tokens, NewLine), listing);
        }
      }
    }
  }
}
