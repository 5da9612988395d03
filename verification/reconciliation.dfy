/**
  One tick of `updateChannelStatus`: for every configured server, in the
  mapping's order, fetch its game state and, when there is one, bring the
  name of each bound channel to the computed target, renaming only when the
  current name differs. Failures of a server or of a binding are skipped.

  The chat platform is abstracted to a table from channel id to current name
  plus a set of injected faults; the logger is abstracted to a report of
  which branch each server and binding took. `RunServers` is the
  reference definition of the tick; `ChannelTable.UpdateChannelStatus` is the
  imperative pass proved equal to it.
 */
module Reconciliation {

  import opened Wrappers
  import opened StatusFetch
  import opened StatusIndicator
  import opened ChannelNaming

  type ChannelId = string

  /** One `{ channelId, suffix }` entry of a server's list in `RCON_DISCORD_MAPPING`. */
  datatype Binding = Binding(channelId: ChannelId, suffix: string)

  /** One `[apiUrl, channels]` entry of `RCON_DISCORD_MAPPING`. */
  datatype ServerEntry = ServerEntry(url: Url, bindings: seq<Binding>)

  /** `FLAG_YELLOW` and `FLAG_GREEN`. */
  datatype Thresholds = Thresholds(yellow: int, green: int)

  /** How `client.channels.fetch` misbehaves for a channel: it resolves to nothing, or it throws. */
  datatype LookupFault = ReturnsNull | LookupThrows(code: int)

  /**
    The failures the chat platform injects this tick: per channel id, a fault
    of the lookup, and the error code `setName` throws with.
   */
  datatype Faults = Faults(lookup: map<ChannelId, LookupFault>, rename: map<ChannelId, int>)

  /** What the lookup of one channel gives. */
  datatype Lookup = Found(name: string) | NotFound | LookupFailed(code: int)

  /** Discord's error code for an unknown channel. */
  const UnknownChannel: int := 10003
  /** Discord's error code for missing permissions. */
  const MissingPermissions: int := 50013

  /** The branch taken for a server or a binding, as the logger reports it. */
  datatype Event =
    | ServerUnavailable(url: Url)
    | ChannelMissing(channelId: ChannelId)
    | Renamed(channelId: ChannelId, name: string)
    | AlreadyUpToDate(channelId: ChannelId, name: string)
    | ChannelDeleted(channelId: ChannelId)
    | PermissionDenied(channelId: ChannelId)
    | UpdateFailed(channelId: ChannelId, code: int)

  /** One `setName` request sent to the platform. */
  datatype RenameCall = RenameCall(channelId: ChannelId, name: string)

  /** The observable state: channel names, rename requests issued, outcome report. */
  datatype Trace = Trace(names: map<ChannelId, string>, calls: seq<RenameCall>, events: seq<Event>)

  /** The server's reply this tick, as fetched; a server with no reply is unreachable. */
  function ReplyFor(replies: map<Url, Reply>, url: Url): Reply
  {
    if url in replies then replies[url] else Unreachable
  }

  /**
    `checkPlayerCount`: the game state of one server, `None` when
    `getGameState` gives `null`. The further `num_players != null` test always
    passes here, since the count is a parsed natural number.
   */
  function ServerState(replies: map<Url, Reply>, url: Url): (r: Option<GameState>)
    ensures url !in replies ==> r.None?
    ensures r.Some? ==> url in replies && GetGameState(replies[url]) == r
    ensures url in replies ==> r == GetGameState(replies[url])
  {
    GetGameState(ReplyFor(replies, url))
  }

  /** `client.channels.fetch(channelId)` against the table and the injected faults. */
  function FetchChannel(names: map<ChannelId, string>, faults: Faults, id: ChannelId): (r: Lookup)
    ensures r.Found? <==> id in names && id !in faults.lookup
    ensures r.Found? ==> r.name == names[id]
    ensures r.LookupFailed? <==> id in faults.lookup && faults.lookup[id].LookupThrows?
    ensures r.LookupFailed? ==> r.code == faults.lookup[id].code
  {
    if id in faults.lookup then
      match faults.lookup[id]
      case ReturnsNull => NotFound
      case LookupThrows(code) => LookupFailed(code)
    else if id in names then Found(names[id])
    else NotFound
  }

  /** The error branch the catch block takes for an error code. */
  function FailureEvent(id: ChannelId, code: int): (e: Event)
    ensures !e.ServerUnavailable? && e.channelId == id
    ensures e.ChannelDeleted? <==> code == UnknownChannel
    ensures e.PermissionDenied? <==> code == MissingPermissions
    ensures e.UpdateFailed? <==> code != UnknownChannel && code != MissingPermissions
  {
    if code == UnknownChannel then ChannelDeleted(id)
    else if code == MissingPermissions then PermissionDenied(id)
    else UpdateFailed(id, code)
  }

  /** Neither the lookup nor the rename of this channel fails. */
  predicate Healthy(faults: Faults, id: ChannelId)
  {
    id !in faults.lookup && id !in faults.rename
  }

  /**
    The body of the inner loop for one binding whose new name is `target`.
    The name changes exactly when the channel is found, differs from the
    target and the rename succeeds; a `setName` request goes out exactly
    when the channel is found and differs.
   */
  function BindingStep(t: Trace, id: ChannelId, target: string, faults: Faults): (r: Trace)
    ensures r.names == t.names || (id in t.names && r.names == t.names[id := target])
    ensures r.names != t.names <==>
      id in t.names && id !in faults.lookup && t.names[id] != target && id !in faults.rename
    ensures r.calls != t.calls <==>
      id in t.names && id !in faults.lookup && t.names[id] != target
    ensures r.calls != t.calls ==> r.calls == t.calls + [RenameCall(id, target)]
    ensures |r.events| == |t.events| + 1 && r.events[..|t.events|] == t.events
    ensures FetchChannel(t.names, faults, id).NotFound? ==> r.events == t.events + [ChannelMissing(id)]
    ensures id in faults.lookup && faults.lookup[id].LookupThrows? ==>
      r.events == t.events + [FailureEvent(id, faults.lookup[id].code)]
    ensures id in t.names && id !in faults.lookup && t.names[id] == target ==>
      r.events == t.events + [AlreadyUpToDate(id, target)]
    ensures id in t.names && id !in faults.lookup && t.names[id] != target && id in faults.rename ==>
      r.events == t.events + [FailureEvent(id, faults.rename[id])]
    ensures r.names != t.names ==> r.events == t.events + [Renamed(id, target)]
  {
    match FetchChannel(t.names, faults, id)
    case NotFound => t.(events := t.events + [ChannelMissing(id)])
    case LookupFailed(code) => t.(events := t.events + [FailureEvent(id, code)])
    case Found(name) =>
      if name == target then
        t.(events := t.events + [AlreadyUpToDate(id, target)])
      else if id in faults.rename then
        Trace(t.names, t.calls + [RenameCall(id, target)], t.events + [FailureEvent(id, faults.rename[id])])
      else
        Trace(t.names[id := target], t.calls + [RenameCall(id, target)], t.events + [Renamed(id, target)])
  }

  /** The channel ids a list of bindings names. */
  function Channels(bs: seq<Binding>): set<ChannelId>
  {
    set p | 0 <= p < |bs| :: bs[p].channelId
  }

  /** The new name of a binding's channel for a given indicator and count. */
  function Target(ind: Indicator, count: nat, b: Binding): string
  {
    ChannelName(ind, count, b.suffix)
  }

  /**
    The inner loop over one server's bindings, first to last. Only channels
    the bindings name can change, every rename request is for one of them,
    and every binding is reported once.
   */
  function RunBindings(t: Trace, bs: seq<Binding>, ind: Indicator, count: nat, faults: Faults): (r: Trace)
    ensures r.names.Keys == t.names.Keys
    ensures forall c :: c in t.names && c !in Channels(bs) ==> r.names[c] == t.names[c]
    ensures |t.calls| <= |r.calls| && r.calls[..|t.calls|] == t.calls
    ensures forall k :: |t.calls| <= k < |r.calls| ==> r.calls[k].channelId in Channels(bs)
    ensures |r.events| == |t.events| + |bs| && r.events[..|t.events|] == t.events
    decreases |bs|
  {
    if bs == [] then t
    else
      var init, last := bs[..|bs| - 1], bs[|bs| - 1];
      assert Channels(init) + {last.channelId} == Channels(bs) by {
        forall c | c in Channels(init) ensures c in Channels(bs) {
          var p :| 0 <= p < |init| && init[p].channelId == c;
          assert bs[p] == init[p];
        }
      }
      var u := RunBindings(t, init, ind, count, faults);
      var r := BindingStep(u, last.channelId, Target(ind, count, last), faults);
      assert r.calls[..|u.calls|] == u.calls;
      assert r.calls[..|t.calls|] == u.calls[..|t.calls|];
      assert r.events[..|t.events|] == u.events[..|t.events|];
      r
  }

  /** The body of the outer loop for one server. */
  function ServerStep(t: Trace, e: ServerEntry, flags: Thresholds, replies: map<Url, Reply>, faults: Faults): (r: Trace)
    ensures r.names.Keys == t.names.Keys
    ensures forall c :: c in t.names && c !in Channels(e.bindings) ==> r.names[c] == t.names[c]
    ensures ServerState(replies, e.url).None? ==>
      r == t.(events := t.events + [ServerUnavailable(e.url)])
  {
    match ServerState(replies, e.url)
    case None => t.(events := t.events + [ServerUnavailable(e.url)])
    case Some(state) =>
      var count := state.numPlayers;
      RunBindings(t, e.bindings, Classify(count, flags.yellow, flags.green), count, faults)
  }

  /** The channels bound to servers that have a game state this tick. */
  function ActiveChannels(m: seq<ServerEntry>, replies: map<Url, Reply>): set<ChannelId>
    decreases |m|
  {
    if m == [] then {}
    else
      var last := m[|m| - 1];
      ActiveChannels(m[..|m| - 1], replies) + (if ServerState(replies, last.url).Some? then Channels(last.bindings) else {})
  }

  /**
    The whole tick: the servers of the mapping in order. No channel is added
    or removed, and only channels bound to a server with a game state can
    change name.
   */
  function RunServers(t: Trace, m: seq<ServerEntry>, flags: Thresholds, replies: map<Url, Reply>, faults: Faults): (r: Trace)
    ensures r.names.Keys == t.names.Keys
    ensures forall c :: c in t.names && c !in ActiveChannels(m, replies) ==> r.names[c] == t.names[c]
    decreases |m|
  {
    if m == [] then t
    else
      var init, last := m[..|m| - 1], m[|m| - 1];
      ServerStep(RunServers(t, init, flags, replies, faults), last, flags, replies, faults)
  }

  /**
    The platform's channels and the record of what the bot did to them, as
    `updateChannelStatus` sees and changes them in place.
   */
  class ChannelTable {
    var names: map<ChannelId, string>
    var calls: seq<RenameCall>
    var events: seq<Event>

    function Snapshot(): Trace
      reads this
    {
      Trace(names, calls, events)
    }

    constructor (channels: map<ChannelId, string>)
      ensures names == channels && calls == [] && events == []
    {
      names := channels;
      calls := [];
      events := [];
    }

    /** `updateChannelStatus`: one tick over the whole mapping. */
    method UpdateChannelStatus(flags: Thresholds, mapping: seq<ServerEntry>, replies: map<Url, Reply>, faults: Faults)
      modifies this
      ensures Snapshot() == RunServers(old(Snapshot()), mapping, flags, replies, faults)
      ensures names.Keys == old(names).Keys
      ensures forall c :: c in old(names) && c !in ActiveChannels(mapping, replies) ==> names[c] == old(names)[c]
    {
      for i := 0 to |mapping|
        invariant Snapshot() == RunServers(old(Snapshot()), mapping[..i], flags, replies, faults)
      {
        assert mapping[..i + 1][..i] == mapping[..i];
        var entry := mapping[i];
        var gameState := ServerState(replies, entry.url);
        if gameState.None? {
          events := events + [ServerUnavailable(entry.url)];
          continue;
        }
        var numPlayers := gameState.value.numPlayers;
        var statusSymbol := Classify(numPlayers, flags.yellow, flags.green);
        UpdateServerChannels(entry.bindings, statusSymbol, numPlayers, faults);
      }
      assert mapping[..|mapping|] == mapping;
    }

    /** The inner loop of `updateChannelStatus` over one server's bindings. */
    method UpdateServerChannels(bindings: seq<Binding>, statusSymbol: Indicator, numPlayers: nat, faults: Faults)
      modifies this
      ensures Snapshot() == RunBindings(old(Snapshot()), bindings, statusSymbol, numPlayers, faults)
    {
      for j := 0 to |bindings|
        invariant Snapshot() == RunBindings(old(Snapshot()), bindings[..j], statusSymbol, numPlayers, faults)
      {
        assert bindings[..j + 1][..j] == bindings[..j];
        UpdateChannel(bindings[j], statusSymbol, numPlayers, faults);
      }
      assert bindings[..|bindings|] == bindings;
    }

    /** One iteration of the inner loop: look the channel up and rename it if its name differs. */
    method UpdateChannel(binding: Binding, statusSymbol: Indicator, numPlayers: nat, faults: Faults)
      modifies this
      ensures Snapshot() == BindingStep(old(Snapshot()), binding.channelId, Target(statusSymbol, numPlayers, binding), faults)
    {
      var id := binding.channelId;
      var newName := ChannelName(statusSymbol, numPlayers, binding.suffix);
      var channel := FetchChannel(names, faults, id);
      if channel.NotFound? {
        events := events + [ChannelMissing(id)];
        return;
      }
      if channel.LookupFailed? {
        events := events + [FailureEvent(id, channel.code)];
        return;
      }
      if channel.name != newName {
        calls := calls + [RenameCall(id, newName)];
        if id in faults.rename {
          events := events + [FailureEvent(id, faults.rename[id])];
        } else {
          names := names[id := newName];
          events := events + [Renamed(id, newName)];
        }
      } else {
        events := events + [AlreadyUpToDate(id, newName)];
      }
    }
  }
}
