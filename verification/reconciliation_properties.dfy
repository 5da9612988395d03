/**
  What one tick of the reconciler guarantees: healthy bindings reach their
  target name whatever happens to other bindings and servers, a pass over
  channels that already carry their targets changes nothing and sends no
  rename, a second clean tick is therefore a no-op, and a failing binding or
  an unavailable server leaves the table as if it were not configured.
 */
module ReconciliationProperties {

  import opened Wrappers
  import opened StatusFetch
  import opened StatusIndicator
  import opened Reconciliation

  /** No two bindings of one server name the same channel. */
  predicate DistinctIds(bs: seq<Binding>)
  {
    forall p, q :: 0 <= p < q < |bs| ==> bs[p].channelId != bs[q].channelId
  }

  /** Every channel is bound at most once in the whole mapping. */
  predicate DistinctChannels(m: seq<ServerEntry>)
  {
    && (forall i :: 0 <= i < |m| ==> DistinctIds(m[i].bindings))
    && (forall i, j :: 0 <= i < j < |m| ==> Channels(m[i].bindings) !! Channels(m[j].bindings))
  }

  predicate NoFaults(faults: Faults)
  {
    faults.lookup == map[] && faults.rename == map[]
  }

  /** The target name of every binding of a server with game state `state`. */
  function ServerTarget(flags: Thresholds, state: GameState, b: Binding): string
  {
    Target(Classify(state.numPlayers, flags.yellow, flags.green), state.numPlayers, b)
  }

  /** Every existing channel of the bindings already carries its target name. */
  ghost predicate BindingsConverged(names: map<ChannelId, string>, bs: seq<Binding>, ind: Indicator, count: nat)
  {
    forall p :: 0 <= p < |bs| && bs[p].channelId in names ==> names[bs[p].channelId] == Target(ind, count, bs[p])
  }

  /** Every existing channel bound to a server with a game state carries its target name. */
  ghost predicate Converged(names: map<ChannelId, string>, m: seq<ServerEntry>, flags: Thresholds, replies: map<Url, Reply>)
  {
    forall i :: 0 <= i < |m| && ServerState(replies, m[i].url).Some? ==>
      var count := ServerState(replies, m[i].url).value.numPlayers;
      BindingsConverged(names, m[i].bindings, Classify(count, flags.yellow, flags.green), count)
  }

  /**
    A binding whose channel exists and whose lookup and rename do not fail
    ends the server's pass with its target name, whatever the other bindings
    do, unless a later binding of the same server names the same channel:
    the last binding naming a channel decides its name.
   */
  lemma {:induction false} RunBindingsReachesTarget(t: Trace, bs: seq<Binding>, ind: Indicator, count: nat, faults: Faults, k: nat)
    requires k < |bs|
    requires forall q :: k < q < |bs| ==> bs[q].channelId != bs[k].channelId
    requires bs[k].channelId in t.names && Healthy(faults, bs[k].channelId)
    ensures RunBindings(t, bs, ind, count, faults).names[bs[k].channelId] == Target(ind, count, bs[k])
    decreases |bs|
  {
    var id, target := bs[k].channelId, Target(ind, count, bs[k]);
    var init, last := bs[..|bs| - 1], bs[|bs| - 1];
    var u := RunBindings(t, init, ind, count, faults);
    var r := BindingStep(u, last.channelId, Target(ind, count, last), faults);
    assert RunBindings(t, bs, ind, count, faults) == r;
    assert id in u.names;
    if k == |bs| - 1 {
      if r.names == u.names {
        assert u.names[id] == target;
      } else {
        assert r.names == u.names[id := target];
      }
    } else {
      assert init[k] == bs[k];
      assert forall q :: k < q < |init| ==> init[q] == bs[q];
      RunBindingsReachesTarget(t, init, ind, count, faults, k);
      assert last.channelId != id;
      assert r.names[id] == u.names[id];
    }
  }

  /**
    Isolation across servers: a healthy binding of a server that has a game
    state ends the tick with its target name, whatever the other servers and
    bindings do, provided no later binding in the mapping names the same
    channel.
   */
  lemma {:induction false} RunServersReachesTarget(
    t: Trace, m: seq<ServerEntry>, flags: Thresholds, replies: map<Url, Reply>, faults: Faults, i: nat, p: nat)
    requires i < |m| && p < |m[i].bindings|
    requires forall q :: p < q < |m[i].bindings| ==> m[i].bindings[q].channelId != m[i].bindings[p].channelId
    requires forall j :: i < j < |m| ==> m[i].bindings[p].channelId !in Channels(m[j].bindings)
    requires ServerState(replies, m[i].url).Some?
    requires m[i].bindings[p].channelId in t.names && Healthy(faults, m[i].bindings[p].channelId)
    ensures RunServers(t, m, flags, replies, faults).names[m[i].bindings[p].channelId]
         == ServerTarget(flags, ServerState(replies, m[i].url).value, m[i].bindings[p])
    decreases |m|
  {
    var init, last := m[..|m| - 1], m[|m| - 1];
    var u := RunServers(t, init, flags, replies, faults);
    var id := m[i].bindings[p].channelId;
    if i == |m| - 1 {
      var count := ServerState(replies, last.url).value.numPlayers;
      RunBindingsReachesTarget(u, last.bindings, Classify(count, flags.yellow, flags.green), count, faults, p);
    } else {
      assert init[i] == m[i];
      assert forall j :: i < j < |init| ==> init[j] == m[j];
      RunServersReachesTarget(t, init, flags, replies, faults, i, p);
      assert id !in Channels(last.bindings);
    }
  }

  /** A server pass over bindings that already carry their targets changes no name and sends no rename. */
  lemma {:induction false} RunBindingsAtFixpoint(t: Trace, bs: seq<Binding>, ind: Indicator, count: nat, faults: Faults)
    requires BindingsConverged(t.names, bs, ind, count)
    ensures RunBindings(t, bs, ind, count, faults).names == t.names
    ensures RunBindings(t, bs, ind, count, faults).calls == t.calls
    decreases |bs|
  {
    if bs != [] {
      var init, last := bs[..|bs| - 1], bs[|bs| - 1];
      assert BindingsConverged(t.names, init, ind, count) by {
        forall q | 0 <= q < |init| && init[q].channelId in t.names
          ensures t.names[init[q].channelId] == Target(ind, count, init[q])
        {
          assert init[q] == bs[q];
        }
      }
      RunBindingsAtFixpoint(t, init, ind, count, faults);
      assert last.channelId in t.names ==> t.names[last.channelId] == Target(ind, count, last);
    }
  }

  /** A tick over a converged table changes no name and sends no rename, whatever fails. */
  lemma {:induction false} RunServersAtFixpoint(
    t: Trace, m: seq<ServerEntry>, flags: Thresholds, replies: map<Url, Reply>, faults: Faults)
    requires Converged(t.names, m, flags, replies)
    ensures RunServers(t, m, flags, replies, faults).names == t.names
    ensures RunServers(t, m, flags, replies, faults).calls == t.calls
    decreases |m|
  {
    if m != [] {
      var init, last := m[..|m| - 1], m[|m| - 1];
      assert Converged(t.names, init, flags, replies) by {
        forall i | 0 <= i < |init| ensures init[i] == m[i] { }
      }
      RunServersAtFixpoint(t, init, flags, replies, faults);
      var u := RunServers(t, init, flags, replies, faults);
      match ServerState(replies, last.url)
      case None =>
      case Some(state) =>
        var count := state.numPlayers;
        assert BindingsConverged(t.names, last.bindings, Classify(count, flags.yellow, flags.green), count);
        RunBindingsAtFixpoint(u, last.bindings, Classify(count, flags.yellow, flags.green), count, faults);
    }
  }

  /** A tick in which nothing fails leaves every bound channel of an available server at its target. */
  lemma CleanTickConverges(t: Trace, m: seq<ServerEntry>, flags: Thresholds, replies: map<Url, Reply>, faults: Faults)
    requires DistinctChannels(m) && NoFaults(faults)
    ensures Converged(RunServers(t, m, flags, replies, faults).names, m, flags, replies)
  {
    var r := RunServers(t, m, flags, replies, faults);
    forall i, p | 0 <= i < |m| && ServerState(replies, m[i].url).Some? && 0 <= p < |m[i].bindings|
                  && m[i].bindings[p].channelId in r.names
      ensures r.names[m[i].bindings[p].channelId] == ServerTarget(flags, ServerState(replies, m[i].url).value, m[i].bindings[p])
    {
      assert DistinctIds(m[i].bindings);
      assert m[i].bindings[p].channelId in Channels(m[i].bindings);
      RunServersReachesTarget(t, m, flags, replies, faults, i, p);
    }
  }

  /**
    Idempotence: after a tick in which nothing failed, a second tick with the
    same game states sends no rename and leaves every name as it was, even if
    lookups or renames fail during it.
   */
  lemma SecondTickIsNoOp(
    t: Trace, m: seq<ServerEntry>, flags: Thresholds, replies: map<Url, Reply>, faults: Faults, later: Faults)
    requires DistinctChannels(m) && NoFaults(faults)
    ensures var first := RunServers(t, m, flags, replies, faults);
      && RunServers(first, m, flags, replies, later).names == first.names
      && RunServers(first, m, flags, replies, later).calls == first.calls
  {
    var first := RunServers(t, m, flags, replies, faults);
    CleanTickConverges(t, m, flags, replies, faults);
    RunServersAtFixpoint(first, m, flags, replies, later);
  }

  /** Processing two lists of bindings one after the other is processing their concatenation. */
  lemma {:induction false} RunBindingsAppend(t: Trace, a: seq<Binding>, b: seq<Binding>, ind: Indicator, count: nat, faults: Faults)
    ensures RunBindings(t, a + b, ind, count, faults) == RunBindings(RunBindings(t, a, ind, count, faults), b, ind, count, faults)
    decreases |b|
  {
    if b == [] {
      assert a + b == a;
    } else {
      assert (a + b)[..|a + b| - 1] == a + b[..|b| - 1];
      RunBindingsAppend(t, a, b[..|b| - 1], ind, count, faults);
    }
  }

  /** Processing two server lists one after the other is processing their concatenation. */
  lemma {:induction false} RunServersAppend(
    t: Trace, a: seq<ServerEntry>, b: seq<ServerEntry>, flags: Thresholds, replies: map<Url, Reply>, faults: Faults)
    ensures RunServers(t, a + b, flags, replies, faults) == RunServers(RunServers(t, a, flags, replies, faults), b, flags, replies, faults)
    decreases |b|
  {
    if b == [] {
      assert a + b == a;
    } else {
      assert (a + b)[..|a + b| - 1] == a + b[..|b| - 1];
      RunServersAppend(t, a, b[..|b| - 1], flags, replies, faults);
    }
  }

  /** The names a pass produces depend on the names it starts from, not on the report; likewise the requests. */
  lemma {:induction false} RunBindingsOnlyReadsNames(t: Trace, u: Trace, bs: seq<Binding>, ind: Indicator, count: nat, faults: Faults)
    requires t.names == u.names
    ensures RunBindings(t, bs, ind, count, faults).names == RunBindings(u, bs, ind, count, faults).names
    ensures t.calls == u.calls ==> RunBindings(t, bs, ind, count, faults).calls == RunBindings(u, bs, ind, count, faults).calls
    decreases |bs|
  {
    if bs != [] {
      RunBindingsOnlyReadsNames(t, u, bs[..|bs| - 1], ind, count, faults);
    }
  }

  lemma {:induction false} RunServersOnlyReadsNames(
    t: Trace, u: Trace, m: seq<ServerEntry>, flags: Thresholds, replies: map<Url, Reply>, faults: Faults)
    requires t.names == u.names && t.calls == u.calls
    ensures RunServers(t, m, flags, replies, faults).names == RunServers(u, m, flags, replies, faults).names
    ensures RunServers(t, m, flags, replies, faults).calls == RunServers(u, m, flags, replies, faults).calls
    decreases |m|
  {
    if m != [] {
      var init, last := m[..|m| - 1], m[|m| - 1];
      RunServersOnlyReadsNames(t, u, init, flags, replies, faults);
      match ServerState(replies, last.url)
      case None =>
      case Some(state) =>
        var count := state.numPlayers;
        RunBindingsOnlyReadsNames(
          RunServers(t, init, flags, replies, faults), RunServers(u, init, flags, replies, faults),
          last.bindings, Classify(count, flags.yellow, flags.green), count, faults);
    }
  }

  /**
    Isolation within a server: a binding whose channel is missing, or whose
    lookup or rename fails, leaves the table exactly as if that binding were
    not configured; the bindings after it are still processed.
   */
  lemma FailingBindingIsInert(t: Trace, bs: seq<Binding>, ind: Indicator, count: nat, faults: Faults, k: nat)
    requires k < |bs|
    requires bs[k].channelId !in t.names || !Healthy(faults, bs[k].channelId)
    ensures RunBindings(t, bs, ind, count, faults).names
         == RunBindings(t, bs[..k] + bs[k + 1..], ind, count, faults).names
    ensures bs[k].channelId !in t.names || bs[k].channelId in faults.lookup ==>
      RunBindings(t, bs, ind, count, faults).calls == RunBindings(t, bs[..k] + bs[k + 1..], ind, count, faults).calls
  {
    var before, after := bs[..k], bs[k + 1..];
    assert bs == (before + [bs[k]]) + after;
    RunBindingsAppend(t, before + [bs[k]], after, ind, count, faults);
    RunBindingsAppend(t, before, [bs[k]], ind, count, faults);
    RunBindingsAppend(t, before, after, ind, count, faults);
    var u := RunBindings(t, before, ind, count, faults);
    assert [bs[k]][..0] == [];
    var v := RunBindings(u, [bs[k]], ind, count, faults);
    assert v.names == u.names;
    assert bs[k].channelId !in t.names || bs[k].channelId in faults.lookup ==> v.calls == u.calls;
    RunBindingsOnlyReadsNames(v, u, after, ind, count, faults);
  }

  /**
    Isolation across servers: a server without a game state changes no
    channel and sends no rename; the tick is as if it were not configured,
    and the servers after it are still processed.
   */
  lemma UnavailableServerIsInert(
    t: Trace, m: seq<ServerEntry>, flags: Thresholds, replies: map<Url, Reply>, faults: Faults, k: nat)
    requires k < |m| && ServerState(replies, m[k].url).None?
    ensures RunServers(t, m, flags, replies, faults).names == RunServers(t, m[..k] + m[k + 1..], flags, replies, faults).names
    ensures RunServers(t, m, flags, replies, faults).calls == RunServers(t, m[..k] + m[k + 1..], flags, replies, faults).calls
  {
    var before, after := m[..k], m[k + 1..];
    assert m == (before + [m[k]]) + after;
    RunServersAppend(t, before + [m[k]], after, flags, replies, faults);
    RunServersAppend(t, before, [m[k]], flags, replies, faults);
    RunServersAppend(t, before, after, flags, replies, faults);
    var u := RunServers(t, before, flags, replies, faults);
    assert [m[k]][..0] == [];
    var v := RunServers(u, [m[k]], flags, replies, faults);
    assert v.names == u.names && v.calls == u.calls;
    RunServersOnlyReadsNames(v, u, after, flags, replies, faults);
  }
}
