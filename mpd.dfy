/** PersistentMPDClient: an MPD client whose commands first ping the
    server and reconnect when the ping fails. The server and the socket are
    an oracle: `script` holds the outcome of each successive call on the
    connection (an exhausted script answers `Fine`). */
module Mpd {
  import opened PyText

  /** How one call on the connection ends. `BrokenPipeError` and
      `OtherOSError` are the two kinds of OSError; `MpdConnectionError` is
      mpd.ConnectionError, which is not an OSError. */
  datatype Outcome = Fine | MpdConnectionError | BrokenPipeError | OtherOSError | OtherException

  predicate IsOSError(o: Outcome) { o == BrokenPipeError || o == OtherOSError }

  /** What the wrapper's `except (mpd.ConnectionError, OSError)` catches. */
  predicate LostConnection(o: Outcome) { o == MpdConnectionError || IsOSError(o) }

  /** The arguments of `connect`. */
  datatype Endpoint = Endpoint(host: Option<string>, port: Option<int>)

  /** A call on the connection. */
  datatype Event = Ping | Disconnect | Connect(to: Endpoint) | Commands | Invoke(cmd: string)

  /** The outcome of call number `n` on the connection. */
  function At(script: seq<Outcome>, n: nat): Outcome {
    if n < |script| then script[n] else Fine
  }

  /** `None` for a call that returned, the exception it raised otherwise. */
  function Raising(o: Outcome): Option<Outcome> {
    if o == Fine then None else Some(o)
  }

  /** A run of some calls: the calls made, the number of the next call, and
      the exception that leaves the run (None when it returns). */
  datatype Run = Run(trace: seq<Event>, next: nat, raised: Option<Outcome>)

  /** `if self.socket:` — set and not empty. */
  predicate Truthy(socket: Option<string>) { socket.Some? && socket.value != "" }

  /** do_connect, starting at call `n`: disconnect (a ConnectionError is
      ignored, a broken pipe is followed by a second disconnect whose
      failure is swallowed), then connect. Any OSError ends the procedure
      quietly; anything else leaves it. */
  function DoConnectRun(ep: Endpoint, script: seq<Outcome>, n: nat): (r: Run)
    ensures r.next == n + |r.trace|
    ensures 1 <= |r.trace| <= 3 && r.trace[0] == Disconnect
  {
    var first := At(script, n);
    if first == OtherException then Run([Disconnect], n + 1, Some(OtherException))
    else if first == OtherOSError then Run([Disconnect], n + 1, None)
    else
      var pre: seq<Event> := if first == BrokenPipeError then [Disconnect, Disconnect] else [Disconnect];
      var c := At(script, n + |pre|);
      Run(pre + [Connect(ep)], n + |pre| + 1, if c == Fine || IsOSError(c) then None else Some(c))
  }

  /** The handler of the wrapper: do_connect after a lost connection,
      nothing otherwise. */
  function Reconnect(ep: Endpoint, ping: Outcome, script: seq<Outcome>, n: nat): (r: Run)
    ensures r.next == n + |r.trace|
    ensures r.trace == [] <==> !LostConnection(ping)
  {
    if LostConnection(ping) then DoConnectRun(ep, script, n) else Run([], n, None)
  }

  /** A wrapped command, starting at call `n`: ping; on a lost connection
      do_connect; then the command itself, once, its outcome going to the
      caller. */
  function TryCmdRun(ep: Endpoint, cmd: string, script: seq<Outcome>, n: nat): (r: Run)
    ensures r.trace != [] && r.trace[0] == Ping
    ensures r.next == n + |r.trace|
  {
    var p := At(script, n);
    if p == OtherException then Run([Ping], n + 1, Some(OtherException))
    else
      var rc := Reconnect(ep, p, script, n + 1);
      if rc.raised.Some? then Run([Ping] + rc.trace, rc.next, rc.raised)
      else Run([Ping] + rc.trace + [Invoke(cmd)], rc.next + 1, Raising(At(script, rc.next)))
  }

  /** A command that is not wrapped goes straight to the connection. */
  function RawRun(cmd: string, script: seq<Outcome>, n: nat): (r: Run)
    ensures r.trace == [Invoke(cmd)] && r.next == n + 1
    ensures r.raised == Raising(At(script, n))
  {
    Run([Invoke(cmd)], n + 1, Raising(At(script, n)))
  }

  function CountInvokes(trace: seq<Event>): nat {
    if trace == [] then 0
    else CountInvokes(trace[..|trace| - 1]) + (if trace[|trace| - 1].Invoke? then 1 else 0)
  }

  function CountPings(trace: seq<Event>): nat {
    if trace == [] then 0
    else CountPings(trace[..|trace| - 1]) + (if trace[|trace| - 1] == Ping then 1 else 0)
  }

  /** The commands __init__ wraps, in order: those the server lists, except
      "ping", that the client class has a method for. */
  function WrapList(commands: seq<string>, methods: set<string>): (w: seq<string>)
    ensures forall c | c in w :: c != "ping" && c in methods && c in commands
    ensures forall k :: 0 <= k < |commands| && commands[k] != "ping" && commands[k] in methods ==> commands[k] in w
    ensures |w| <= |commands|
  {
    if commands == [] then []
    else
      var last := commands[|commands| - 1];
      var w := WrapList(commands[..|commands| - 1], methods);
      assert forall k :: 0 <= k < |commands| - 1 ==> commands[..|commands| - 1][k] == commands[k];
      w + (if last != "ping" && last in methods then [last] else [])
  }

  /** PersistentMPDClient. `socket`, `host` and `port` are set once; the
      connection answers call number `n` with `At(script, n)`, `calls`
      counts the calls made and `trace` records them; `wrapped` lists the
      commands replaced by their ping-and-retry wrapper. */
  class Client {
    const socket: Option<string>
    const host: Option<string>
    const port: Option<int>
    /** The names of the methods of mpd.MPDClient (`hasattr(super(), cmd)`). */
    const methods: set<string>
    const script: seq<Outcome>
    var calls: nat
    ghost var trace: seq<Event>
    var commandList: seq<string>
    var wrapped: seq<string>

    /** The arguments do_connect passes to connect. */
    function Ep(): (ep: Endpoint)
      ensures ep.host == (if Truthy(socket) then socket else host)
      ensures ep.port == (if Truthy(socket) then None else port)
    {
      if Truthy(socket) then Endpoint(socket, None) else Endpoint(host, port)
    }

    constructor Init(socket0: Option<string>, host0: Option<string>, port0: Option<int>,
                     methods0: set<string>, script0: seq<Outcome>)
      ensures socket == socket0 && host == host0 && port == port0 && methods == methods0 && script == script0
      ensures calls == 0 && trace == [] && commandList == [] && wrapped == []
    {
      socket, host, port, methods, script := socket0, host0, port0, methods0, script0;
      calls, trace := 0, [];
      commandList, wrapped := [], [];
    }

    /** One call on the connection. */
    method Transport(e: Event) returns (o: Outcome)
      modifies this
      ensures o == At(script, old(calls)) && calls == old(calls) + 1 && trace == old(trace) + [e]
      ensures commandList == old(commandList) && wrapped == old(wrapped)
    {
      o := At(script, calls);
      calls := calls + 1;
      trace := trace + [e];
    }

    method DoConnect() returns (raised: Option<Outcome>)
      modifies this
      ensures var r := DoConnectRun(Ep(), script, old(calls));
        calls == r.next && trace == old(trace) + r.trace && raised == r.raised
      ensures commandList == old(commandList) && wrapped == old(wrapped)
    {
      var first := Transport(Disconnect);
      if first == OtherException {
        return Some(OtherException);
      }
      if first == OtherOSError {
        return None;
      }
      if first == BrokenPipeError {
        var _ := Transport(Disconnect);
      }
      var c := Transport(Connect(Ep()));
      if c == Fine || IsOSError(c) {
        raised := None;
      } else {
        raised := Some(c);
      }
    }

    /** The unwrapped command, as `cmd_fun` in the wrapper. */
    method RawCall(cmd: string) returns (raised: Option<Outcome>)
      modifies this
      ensures var r := RawRun(cmd, script, old(calls));
        calls == r.next && trace == old(trace) + r.trace && raised == r.raised
      ensures commandList == old(commandList) && wrapped == old(wrapped)
    {
      var o := Transport(Invoke(cmd));
      raised := Raising(o);
    }

    /** The function try_cmd returns, applied to `cmd`. */
    method TryCmd(cmd: string) returns (raised: Option<Outcome>)
      modifies this
      ensures var r := TryCmdRun(Ep(), cmd, script, old(calls));
        calls == r.next && trace == old(trace) + r.trace && raised == r.raised
      ensures commandList == old(commandList) && wrapped == old(wrapped)
    {
      ghost var trace0 := trace;
      var p := Transport(Ping);
      if p == OtherException {
        return Some(OtherException);
      }
      ghost var rc := Reconnect(Ep(), p, script, calls);
      if LostConnection(p) {
        raised := DoConnect();
        if raised.Some? {
          return;
        }
      }
      assert trace == trace0 + [Ping] + rc.trace && calls == rc.next;
      raised := RawCall(cmd);
      assert trace == trace0 + ([Ping] + rc.trace + [Invoke(cmd)]);
    }

    /** A command called on the client: through its wrapper when __init__
        replaced it, directly otherwise. */
    method Call(cmd: string) returns (raised: Option<Outcome>)
      modifies this
      ensures var r := if cmd in wrapped then TryCmdRun(Ep(), cmd, script, old(calls)) else RawRun(cmd, script, old(calls));
        calls == r.next && trace == old(trace) + r.trace && raised == r.raised
      ensures commandList == old(commandList) && wrapped == old(wrapped)
    {
      if cmd in wrapped {
        raised := TryCmd(cmd);
      } else {
        raised := RawCall(cmd);
      }
    }

    /** The loop of __init__ over the command list. */
    method WrapCommands()
      modifies this
      ensures wrapped == old(wrapped) + WrapList(commandList, methods)
      ensures calls == old(calls) && trace == old(trace) && commandList == old(commandList)
    {
      var i := 0;
      while i < |commandList|
        invariant 0 <= i <= |commandList|
        invariant wrapped == old(wrapped) + WrapList(commandList[..i], methods)
        invariant calls == old(calls) && trace == old(trace) && commandList == old(commandList)
      {
        var cmd := commandList[i];
        assert commandList[..i + 1][..i] == commandList[..i];
        if cmd != "ping" && cmd in methods {
          wrapped := wrapped + [cmd];
        }
        i := i + 1;
      }
      assert commandList[..i] == commandList;
    }

    /** The part of __init__ after the connect: ask the server for its
        commands (answered by `serverCommands`), then wrap them. */
    method FetchAndWrap(serverCommands: seq<string>) returns (raised: Option<Outcome>)
      requires wrapped == []
      modifies this
      ensures calls == old(calls) + 1 && trace == old(trace) + [Commands]
      ensures raised == Raising(At(script, old(calls)))
      ensures raised.None? ==> commandList == serverCommands && wrapped == WrapList(serverCommands, methods)
      ensures raised.Some? ==> wrapped == []
    {
      var o := Transport(Commands);
      raised := Raising(o);
      if raised.Some? {
        return;
      }
      commandList := serverCommands;
      WrapCommands();
    }

    /** PersistentMPDClient(socket, host, port): connect first, then fetch
        and wrap the commands. An exception from either step leaves the
        constructor, and no client is obtained (`raised` is set). */
    static method Open(socket0: Option<string>, host0: Option<string>, port0: Option<int>,
                       methods0: set<string>, script0: seq<Outcome>, serverCommands: seq<string>)
      returns (c: Client, raised: Option<Outcome>)
      ensures fresh(c)
      ensures c.socket == socket0 && c.host == host0 && c.port == port0 && c.methods == methods0 && c.script == script0
      ensures var dc := DoConnectRun(c.Ep(), script0, 0);
        && (dc.raised.Some? ==> raised == dc.raised && c.trace == dc.trace && c.wrapped == [])
        && (dc.raised.None? ==>
              && c.trace == dc.trace + [Commands]
              && raised == Raising(At(script0, |dc.trace|))
              && (raised.None? ==> c.commandList == serverCommands && c.wrapped == WrapList(serverCommands, methods0))
              && (raised.Some? ==> c.wrapped == []))
    {
      c := new Client.Init(socket0, host0, port0, methods0, script0);
      raised := c.DoConnect();
      if raised.Some? {
        return;
      }
      raised := c.FetchAndWrap(serverCommands);
    }
  }
}
