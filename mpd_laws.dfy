/** What the reconnecting client promises: every wrapped call pings once
    and runs its command at most once (exactly once unless an exception
    other than a lost connection intervenes), it reconnects exactly when
    the ping reports a lost connection, and "ping" itself is never
    wrapped. */
module MpdLaws {
  import opened PyText
  import opened Mpd

  lemma {:induction false} CountAppend(a: seq<Event>, b: seq<Event>)
    ensures CountInvokes(a + b) == CountInvokes(a) + CountInvokes(b)
    ensures CountPings(a + b) == CountPings(a) + CountPings(b)
    decreases |b|
  {
    if b == [] {
      assert a + b == a;
    } else {
      var b' := b[..|b| - 1];
      assert (a + b)[..|a + b| - 1] == a + b';
      CountAppend(a, b');
    }
  }

  /** do_connect from call `n`: it starts with a disconnect, and a second
      disconnect follows exactly when the first reports a broken pipe; it
      connects to `ep` (its last call) unless the first disconnect raised an
      OSError other than a broken pipe, or something that is not an OSError.
      It never lets an OSError out: it raises only when the first disconnect
      raised something that is neither an OSError nor mpd.ConnectionError, or
      when the connect raised something that is not an OSError. */
  lemma DoConnectProtocol(ep: Endpoint, script: seq<Outcome>, n: nat)
    ensures
      var r := DoConnectRun(ep, script, n);
      var last := |r.trace| - 1;
      var first := At(script, n);
      && (r.raised.None? || r.raised == Some(MpdConnectionError) || r.raised == Some(OtherException))
      && (r.trace[last] == Connect(ep) <==> first != OtherOSError && first != OtherException)
      && ((|r.trace| >= 2 && r.trace[1] == Disconnect) <==> first == BrokenPipeError)
      && (forall k :: 0 <= k < last ==> r.trace[k] == Disconnect)
      && (r.trace[last] == Disconnect || r.trace[last] == Connect(ep))
      && (r.raised.Some? <==>
            first == OtherException ||
            (r.trace[last] == Connect(ep) && At(script, n + last) in {MpdConnectionError, OtherException}))
  {
  }

  /** A trace with neither pings nor commands counts zero of each. */
  lemma {:induction false} CountNone(t: seq<Event>)
    requires forall k :: 0 <= k < |t| ==> t[k] == Disconnect || t[k].Connect?
    ensures CountInvokes(t) == 0 && CountPings(t) == 0
    decreases |t|
  {
    if t != [] {
      CountNone(t[..|t| - 1]);
    }
  }

  /** The ping, the reconnect events and possibly the command: one ping,
      and one command exactly when it is there. */
  lemma WrappedCounts(t: seq<Event>, cmd: string)
    requires forall k :: 0 <= k < |t| ==> t[k] == Disconnect || t[k].Connect?
    ensures CountPings([Ping] + t) == 1 && CountInvokes([Ping] + t) == 0
    ensures CountPings([Ping] + t + [Invoke(cmd)]) == 1 && CountInvokes([Ping] + t + [Invoke(cmd)]) == 1
  {
    CountNone(t);
    CountAppend([], [Ping]);
    CountAppend([Ping], t);
    CountAppend([Ping] + t, [Invoke(cmd)]);
    CountAppend([], [Invoke(cmd)]);
  }

  /** The events of the reconnect step are disconnects and connects. */
  lemma ReconnectEvents(ep: Endpoint, p: Outcome, script: seq<Outcome>, n: nat)
    ensures var t := Reconnect(ep, p, script, n).trace;
      && |t| <= 3
      && forall k :: 0 <= k < |t| ==> t[k] == Disconnect || t[k].Connect?
  {
    if LostConnection(p) {
      DoConnectProtocol(ep, script, n);
    }
  }

  /** A wrapped call pings exactly once, first. The command runs exactly
      once, as the last call, unless the ping raised something other than a
      lost connection or do_connect raised; then it does not run at all and
      that exception reaches the caller. When it runs, the caller gets its
      own outcome. At most five calls are made. */
  lemma TryCmdExactlyOnce(ep: Endpoint, cmd: string, script: seq<Outcome>, n: nat)
    ensures
      var r := TryCmdRun(ep, cmd, script, n);
      var p := At(script, n);
      var dc := DoConnectRun(ep, script, n + 1);
      var reached := p != OtherException && !(LostConnection(p) && dc.raised.Some?);
      && CountPings(r.trace) == 1
      && CountInvokes(r.trace) == (if reached then 1 else 0)
      && 1 <= |r.trace| <= 5
      && (reached ==> r.trace[|r.trace| - 1] == Invoke(cmd) && r.raised == Raising(At(script, r.next - 1)))
      && (!reached ==> r.raised == (if p == OtherException then Some(OtherException) else dc.raised))
  {
    var r := TryCmdRun(ep, cmd, script, n);
    var p := At(script, n);
    if p == OtherException {
      assert r.trace == [Ping] + [];
      WrappedCounts([], cmd);
    } else {
      var rc := Reconnect(ep, p, script, n + 1);
      ReconnectEvents(ep, p, script, n + 1);
      WrappedCounts(rc.trace, cmd);
      if rc.raised.Some? {
        assert r.trace == [Ping] + rc.trace;
      } else {
        assert r.trace == [Ping] + rc.trace + [Invoke(cmd)];
      }
    }
  }

  /** do_connect always disconnects, and connects (to `ep`, and nowhere
      else) unless its first disconnect raised an OSError other than a
      broken pipe or something that is not an OSError. */
  lemma DoConnectEvents(ep: Endpoint, script: seq<Outcome>, n: nat)
    ensures
      var t := DoConnectRun(ep, script, n).trace;
      && Disconnect in t && Ping !in t
      && (forall c | c in t :: !c.Invoke?)
      && (Connect(ep) in t <==> At(script, n) != OtherOSError && At(script, n) != OtherException)
      && (forall e | e in t && e.Connect? :: e == Connect(ep))
  {
    var t := DoConnectRun(ep, script, n).trace;
    DoConnectProtocol(ep, script, n);
    assert t[0] == Disconnect;
    if Connect(ep) in t {
      var k :| 0 <= k < |t| && t[k] == Connect(ep);
    }
  }

  /** do_connect runs inside a wrapped call exactly when the ping reports a
      lost connection (mpd.ConnectionError or an OSError); it then connects
      unless its first disconnect raised an OSError other than a broken pipe
      or something that is not an OSError. */
  lemma ReconnectIff(ep: Endpoint, cmd: string, script: seq<Outcome>, n: nat)
    ensures
      var r := TryCmdRun(ep, cmd, script, n);
      var d := At(script, n + 1);
      && (Disconnect in r.trace <==> LostConnection(At(script, n)))
      && (Connect(ep) in r.trace <==> LostConnection(At(script, n)) && d != OtherOSError && d != OtherException)
      && (forall e | e in r.trace && e.Connect? :: e == Connect(ep))
  {
    var r := TryCmdRun(ep, cmd, script, n);
    var p := At(script, n);
    if p == OtherException {
      assert r.trace == [Ping];
    } else {
      var rc := Reconnect(ep, p, script, n + 1);
      DoConnectEvents(ep, script, n + 1);
      var tail: seq<Event> := if rc.raised.None? then [Invoke(cmd)] else [];
      assert r.trace == [Ping] + rc.trace + tail;
    }
  }

  /** When every failure is a socket error (an OSError) the command always
      runs, once, whatever happened to the ping and the reconnect. */
  lemma CommandSurvivesSocketErrors(ep: Endpoint, cmd: string, script: seq<Outcome>, n: nat)
    requires forall k :: 0 <= k < |script| ==> script[k] == Fine || IsOSError(script[k])
    ensures
      var r := TryCmdRun(ep, cmd, script, n);
      && CountInvokes(r.trace) == 1
      && r.trace[|r.trace| - 1] == Invoke(cmd)
  {
    TryCmdExactlyOnce(ep, cmd, script, n);
    DoConnectProtocol(ep, script, n + 1);
    var dc := DoConnectRun(ep, script, n + 1);
    var c := At(script, n + |dc.trace| - 1);
    assert c == Fine || IsOSError(c);
  }

  /** After __init__, a call goes through the ping-and-retry wrapper exactly
      when the server listed the command, it is not "ping", and the client
      class has it; "ping" itself always goes straight to the server. */
  lemma CallIsWrappedIff(commands: seq<string>, methods: set<string>, cmd: string)
    ensures cmd in WrapList(commands, methods) <==> cmd in commands && cmd != "ping" && cmd in methods
    ensures "ping" !in WrapList(commands, methods)
  {
    if cmd in commands && cmd != "ping" && cmd in methods {
      var k :| 0 <= k < |commands| && commands[k] == cmd;
    }
  }
}
