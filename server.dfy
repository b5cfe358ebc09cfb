/** The game server (server.py): each client's receive loop frames the byte
    stream into lines and dispatches the decoded messages into shared,
    last-write-wins slots (one movement command per player and the
    control requests); the main loop turns those slots into one engine
    tick, applies the dimension and new-game requests, broadcasts the
    snapshot and prunes the connections whose send failed. */
module Server {
  import opened Values
  import opened Framing
  import opened Board
  import opened Physics
  import opened Entities
  import opened Engine

  /** A client connection; the receive and send sides are oracles. */
  type Conn = nat

  const FRAME_DT: real := 1.0 / 30.0

  /** The control slots of the `controls` dict; an absent key is `None`. */
  datatype Controls = Controls(newGame: bool, setDims: Option<int>, trajectory: Option<Trajectory>,
                               paused: Option<bool>)

  /** The slots the receive loops write and the main loop reads. */
  datatype Slots = Slots(commands: map<int, string>, controls: Controls)

  const InitialCommands: map<int, string> := map[1 := "stop", 2 := "stop"]
  const InitialControls: Controls := Controls(false, None, None, None)

  /** Every trajectory waiting in the slots is one the engine accepts. */
  predicate SlotsOk(s: Slots) {
    s.controls.trajectory.Some? ==> WellFormed(s.controls.trajectory.value)
  }

  predicate IsMove(v: Value) {
    v == Str("left") || v == Str("right") || v == Str("stop")
  }

  /** The `pause` control: a boolean value sets the flag, anything else
      toggles its previous value (absent counts as not paused). */
  function PauseFlag(previous: Option<bool>, v: Value): (r: bool)
    ensures v.Bool? ==> r == v.b
    ensures !v.Bool? ==> r == !previous.GetOr(false)
  {
    if v.Bool? then v.b else !previous.GetOr(false)
  }

  /** A `control` message with its `cmd` and `value` entries. */
  function Control(s: Slots, player: int, cmd: Value, value: Value): Slots {
    var c := s.controls;
    if cmd == Str("new_game") then s.(controls := c.(newGame := true))
    else if cmd == Str("set_dims") then
      (match AsInt(value)
       case Some(v) => s.(controls := c.(setDims := Some(v)))
       case None => s)
    else if cmd == Str("trajectory") then
      if player != 1 then s
      else
        (match AcceptTrajectory(value)
         case Some(t) => s.(controls := c.(trajectory := Some(t)))
         case None => s)
    else if cmd == Str("pause") then s.(controls := c.(paused := Some(PauseFlag(c.paused, value))))
    else s
  }

  /** One decoded line from `player` (`None`: the line is not valid JSON):
      anything but an object is skipped, a `cmd` message sets the player's
      command when it is a movement, a `control` message updates one
      control slot. One message changes at most one slot. */
  function Dispatch(s: Slots, player: int, msg: Option<Value>): (r: Slots)
    ensures !(msg.Some? && msg.value.Obj?) ==> r == s
    ensures r.commands == s.commands || r.controls == s.controls
    ensures r.commands != s.commands ==>
              player in r.commands && r.commands == s.commands[player := r.commands[player]]
              && IsMove(Str(r.commands[player]))
    ensures player != 1 ==> r.controls.trajectory == s.controls.trajectory
    ensures SlotsOk(s) ==> SlotsOk(r)
  {
    match msg
    case Some(Obj(fields)) =>
      var mtype := Lookup(fields, "type");
      var cmd := Lookup(fields, "cmd");
      if mtype == Str("cmd") then
        if IsMove(cmd) then s.(commands := s.commands[player := cmd.s]) else s
      else if mtype == Str("control") then Control(s, player, cmd, Lookup(fields, "value"))
      else s
    case _ => s
  }

  /** A message object with the given `type`, `cmd` and `value` entries. */
  function Message(mtype: string, cmd: Value, value: Value): Value {
    Obj(map["type" := Str(mtype), "cmd" := cmd, "value" := value])
  }

  /** Movement commands: a movement overwrites the player's slot and the
      last one wins; any other `cmd` leaves every slot as it was. */
  lemma CommandSlot(s: Slots, player: int, cmd: Value, cmd2: Value)
    ensures IsMove(cmd) ==> Dispatch(s, player, Some(Message("cmd", cmd, Null)))
                            == s.(commands := s.commands[player := cmd.s])
    ensures !IsMove(cmd) ==> Dispatch(s, player, Some(Message("cmd", cmd, Null))) == s
    ensures IsMove(cmd2) ==>
              Dispatch(Dispatch(s, player, Some(Message("cmd", cmd, Null))), player, Some(Message("cmd", cmd2, Null)))
              == s.(commands := s.commands[player := cmd2.s])
  {
  }

  /** Trajectories: only player 1 may choose one; an accepted value is
      stored as parsed, a refused one leaves the slots unchanged. */
  lemma TrajectorySlot(s: Slots, player: int, v: Value)
    ensures var r := Dispatch(s, player, Some(Message("control", Str("trajectory"), v)));
            && (player != 1 ==> r == s)
            && (player == 1 && AcceptTrajectory(v).Some? ==>
                  r == s.(controls := s.controls.(trajectory := AcceptTrajectory(v))))
            && (AcceptTrajectory(v).None? ==> r == s)
  {
    var m := Message("control", Str("trajectory"), v);
    assert Lookup(m.fields, "type") == Str("control");
    assert Lookup(m.fields, "cmd") == Str("trajectory");
    assert Lookup(m.fields, "value") == v;
    assert Dispatch(s, player, Some(m)) == Control(s, player, Str("trajectory"), v);
  }

  /** Pause: a boolean sets the flag; anything else toggles it, so two
      toggles restore the previous state (absent reads as not paused). */
  lemma PauseSlot(s: Slots, player: int, v: Value)
    ensures var r := Dispatch(s, player, Some(Message("control", Str("pause"), v)));
            && (v.Bool? ==> r == s.(controls := s.controls.(paused := Some(v.b))))
            && (!v.Bool? ==> r == s.(controls := s.controls.(paused := Some(!s.controls.paused.GetOr(false)))))
    ensures !v.Bool? ==>
              var m := Some(Message("control", Str("pause"), v));
              Dispatch(Dispatch(s, player, m), player, m).controls.paused.GetOr(false)
              == s.controls.paused.GetOr(false)
  {
  }

  /** Dimension requests store the value `int()` gives and ignore values it
      refuses; a new-game request raises its flag. */
  lemma DimsAndNewGameSlots(s: Slots, player: int, v: Value)
    ensures var r := Dispatch(s, player, Some(Message("control", Str("set_dims"), v)));
            r == (if AsInt(v).Some? then s.(controls := s.controls.(setDims := AsInt(v))) else s)
    ensures Dispatch(s, player, Some(Message("control", Str("new_game"), v)))
            == s.(controls := s.controls.(newGame := true))
  {
  }

  /** The slots after handling `lines`, in order. */
  function DispatchLines(s: Slots, player: int, lines: seq<seq<byte>>, decode: seq<byte> -> Option<Value>): Slots
    decreases |lines|
  {
    if lines == [] then s
    else Dispatch(DispatchLines(s, player, lines[..|lines| - 1], decode), player, decode(lines[|lines| - 1]))
  }

  lemma {:induction false} DispatchLinesAppend(s: Slots, player: int, a: seq<seq<byte>>, b: seq<seq<byte>>,
                                               decode: seq<byte> -> Option<Value>)
    ensures DispatchLines(s, player, a + b, decode) == DispatchLines(DispatchLines(s, player, a, decode), player, b, decode)
    decreases |b|
  {
    if b == [] {
      assert a + b == a;
    } else {
      var n := |b| - 1;
      assert (a + b)[..|a + b| - 1] == a + b[..n];
      assert (a + b)[|a + b| - 1] == b[n];
      DispatchLinesAppend(s, player, a, b[..n], decode);
    }
  }

  lemma DispatchLinesSnoc(s: Slots, player: int, lines: seq<seq<byte>>, line: seq<byte>,
                          decode: seq<byte> -> Option<Value>)
    ensures DispatchLines(s, player, lines + [line], decode)
            == Dispatch(DispatchLines(s, player, lines, decode), player, decode(line))
  {
    assert (lines + [line])[..|lines|] == lines;
  }

  /** Taking the first line off the buffer moves it to the handled lines. */
  lemma FrameStep(done: seq<seq<byte>>, buf: seq<byte>, all: (seq<seq<byte>>, seq<byte>))
    requires NEWLINE in buf
    requires done + SplitLines(buf).0 == all.0 && SplitLines(buf).1 == all.1
    ensures done + [SplitOnce(buf).0] + SplitLines(SplitOnce(buf).1).0 == all.0
    ensures SplitLines(SplitOnce(buf).1).1 == all.1
  {
    var (line, tail) := SplitOnce(buf);
    assert SplitLines(buf).0 == [line] + SplitLines(tail).0;
    assert done + [line] + SplitLines(tail).0 == done + ([line] + SplitLines(tail).0);
  }

  /** A line that is not valid JSON, or not an object, is skipped and the
      lines after it are still handled. */
  lemma SkippedLine(s: Slots, player: int, a: seq<seq<byte>>, line: seq<byte>, b: seq<seq<byte>>,
                    decode: seq<byte> -> Option<Value>)
    requires !(decode(line).Some? && decode(line).value.Obj?)
    ensures DispatchLines(s, player, a + [line] + b, decode)
            == DispatchLines(DispatchLines(s, player, a, decode), player, b, decode)
  {
    DispatchLinesAppend(s, player, a + [line], b, decode);
    DispatchLinesAppend(s, player, a, [line], decode);
    assert [line][..0] == [];
  }

  /** Handled lines keep the slots well formed. */
  lemma {:induction false} DispatchLinesOk(s: Slots, player: int, lines: seq<seq<byte>>, decode: seq<byte> -> Option<Value>)
    requires SlotsOk(s)
    ensures SlotsOk(DispatchLines(s, player, lines, decode))
    decreases |lines|
  {
    if lines != [] {
      DispatchLinesOk(s, player, lines[..|lines| - 1], decode);
    }
  }

  /** The bytes of `chunks`, in order. */
  function Concat(chunks: seq<seq<byte>>): seq<byte> {
    if chunks == [] then [] else Concat(chunks[..|chunks| - 1]) + chunks[|chunks| - 1]
  }

  lemma ConcatSnoc(chunks: seq<seq<byte>>, i: nat)
    requires i < |chunks|
    ensures Concat(chunks[..i + 1]) == Concat(chunks[..i]) + chunks[i]
  {
    assert chunks[..i + 1][..i] == chunks[..i];
  }

  /** The number of chunks before the first empty one (a closed connection). */
  function Open(chunks: seq<seq<byte>>): (n: nat)
    ensures n <= |chunks|
    ensures forall k :: 0 <= k < n ==> chunks[k] != []
    ensures n < |chunks| ==> chunks[n] == []
  {
    if chunks == [] || chunks[0] == [] then 0 else 1 + Open(chunks[1..])
  }

  /** The slots after the receive loop of `player` read `chunks`: the lines
      of the bytes received, in order, however they were split in chunks. */
  function Received(s: Slots, player: int, chunks: seq<seq<byte>>, decode: seq<byte> -> Option<Value>): Slots {
    DispatchLines(s, player, SplitLines(Concat(chunks[..Open(chunks)])).0, decode)
  }

  /** Receiving in two parts is handling the lines of the first part, then
      those of the buffered remainder extended by the second. */
  lemma ReceiveInParts(s: Slots, player: int, a: seq<byte>, b: seq<byte>, decode: seq<byte> -> Option<Value>)
    ensures DispatchLines(s, player, SplitLines(a + b).0, decode)
            == DispatchLines(DispatchLines(s, player, SplitLines(a).0, decode), player,
                             SplitLines(SplitLines(a).1 + b).0, decode)
  {
    SplitLinesAppend(a, b);
    DispatchLinesAppend(s, player, SplitLines(a).0, SplitLines(SplitLines(a).1 + b).0, decode);
  }

  /** The `player_commands` the engine receives: players 1 and 2 become
      engine indices 0 and 1, a missing command is `stop`. */
  function PlayerCommands(commands: map<int, string>): (r: map<int, string>)
    ensures r.Keys == {0, 1}
    ensures r[0] == (if 1 in commands then commands[1] else "stop")
    ensures r[1] == (if 2 in commands then commands[2] else "stop")
  {
    map[0 := if 1 in commands then commands[1] else "stop",
        1 := if 2 in commands then commands[2] else "stop"]
  }

  /** The `trajectory` entry of `player_commands` (`Null`: absent). */
  function TrajectoryEntry(t: Option<Trajectory>): Value {
    if t.Some? then TrajectoryValue(t.value) else Null
  }

  /** The control slots after a tick: the trajectory is consumed, the
      dimension request and the new-game flag are cleared, pause stays. */
  function AfterTick(c: Controls): (r: Controls)
    ensures r.trajectory.None? && r.setDims.None? && !r.newGame && r.paused == c.paused
  {
    c.(trajectory := None, setDims := None, newGame := false)
  }

  /** The match data `d` of world `w` after the engine step of a frame:
      as it was while paused, otherwise that of one `Step`. */
  ghost function EngineData(d: MatchData, w: World, g: BoardGeom, paused: bool, cmds: map<int, string>,
                            traj: Value, now: real, cosSin: real -> (real, real)): MatchData
    requires |w.paddles| == 2
  {
    if paused then d
    else
      var w' := Step(w, g, FRAME_DT, cmds, traj, now, cosSin).0;
      d.(pieces := w'.pieces, gameOver := w'.gameOver, waiting := w'.waiting, pending := w'.pending)
  }

  /** A trajectory chosen by player 1 reaches the engine unchanged at the
      next tick: if that tick is not paused, a waiting engine takes it as its
      pending choice and stops waiting; the tick after finds no trajectory. */
  lemma TrajectoryDelivered(s: Slots, v: Value, w: World, g: BoardGeom, dt: real, now: real,
                            cosSin: real -> (real, real))
    requires SlotsOk(s) && |w.paddles| == 2 && w.waiting && AcceptTrajectory(v).Some?
    ensures var c := Dispatch(s, 1, Some(Message("control", Str("trajectory"), v))).controls;
            var w2 := Step(w, g, dt, PlayerCommands(s.commands), TrajectoryEntry(c.trajectory), now, cosSin).0;
            && !w2.waiting && w2.pending == AcceptTrajectory(v)
            && TrajectoryEntry(AfterTick(c).trajectory) == Null
  {
    var t := AcceptTrajectory(v).value;
    var c := Dispatch(s, 1, Some(Message("control", Str("trajectory"), v))).controls;
    TrajectorySlot(s, 1, v);
    assert c.trajectory == Some(t);
    TrajectoryRoundTrip(t);
    assert TrajectoryEntry(c.trajectory) == TrajectoryValue(t);
    TrajectoryGate(w, g, dt, PlayerCommands(s.commands), TrajectoryValue(t), now, cosSin);
  }

  /** A paused tick still consumes the slot: a trajectory stored while the
      game is paused is cleared by the next tick, which leaves the engine
      as it was (`Server.RunEngine`), so the choice is lost. */
  lemma TrajectoryLostWhenPaused(s: Slots, v: Value)
    requires s.controls.paused.GetOr(false) && AcceptTrajectory(v).Some?
    ensures var c := Dispatch(s, 1, Some(Message("control", Str("trajectory"), v))).controls;
            && c.trajectory == AcceptTrajectory(v) && c.paused.GetOr(false)
            && AfterTick(c).trajectory.None? && AfterTick(c).paused == c.paused
  {
    TrajectorySlot(s, 1, v);
  }

  /** The column count a `set_dims` request `v` yields: `str(v)` parses
      back to `v`, so it is `v` when allowed and 8 otherwise. */
  lemma DimsSetting(v: int)
    ensures ActiveCols(Some(IntToString(v))) == if AllowedCols(v) then v else COLS
  {
    IntStringRoundTrip(v);
  }

  /** The connections whose send succeeded, in order. */
  function Kept(cs: seq<Conn>, sendOk: Conn -> bool): (r: seq<Conn>)
    ensures |r| <= |cs|
    ensures forall c :: c in r <==> c in cs && sendOk(c)
  {
    if cs == [] then [] else (if sendOk(cs[0]) then [cs[0]] else []) + Kept(cs[1..], sendOk)
  }

  /** The connections whose send failed, in order. */
  function Failed(cs: seq<Conn>, sendOk: Conn -> bool): seq<Conn> {
    if cs == [] then [] else FailedOne(cs[0], sendOk) + Failed(cs[1..], sendOk)
  }

  /** `c` when its send failed, nothing otherwise. */
  function FailedOne(c: Conn, sendOk: Conn -> bool): seq<Conn> {
    if sendOk(c) then [] else [c]
  }

  lemma {:induction false} FailedSnoc(cs: seq<Conn>, c: Conn, sendOk: Conn -> bool)
    ensures Failed(cs + [c], sendOk) == Failed(cs, sendOk) + FailedOne(c, sendOk)
  {
    if cs == [] {
      assert [c][1..] == [];
    } else {
      var t := cs[1..];
      assert (cs + [c])[0] == cs[0];
      assert (cs + [c])[1..] == t + [c];
      FailedSnoc(t, c, sendOk);
      assert Failed(cs + [c], sendOk) == FailedOne(cs[0], sendOk) + (Failed(t, sendOk) + FailedOne(c, sendOk));
    }
  }

  /** `conns.remove(d)` for each `d` in `dead`, a missing one skipped. */
  function RemoveAll(cs: seq<Conn>, dead: seq<Conn>): seq<Conn>
    decreases |dead|
  {
    if dead == [] then cs else RemoveAll(RemoveFirst(cs, dead[0]), dead[1..])
  }

  /** Removing the failed connections one by one keeps exactly the others,
      in order, even when a connection is listed twice. */
  lemma {:induction false} RemoveFailed(cs: seq<Conn>, sendOk: Conn -> bool)
    ensures RemoveAll(cs, Failed(cs, sendOk)) == Kept(cs, sendOk)
  {
    if cs != [] {
      var c, tail := cs[0], cs[1..];
      var dead := Failed(tail, sendOk);
      RemoveFailed(tail, sendOk);
      assert cs == [c] + tail;
      if sendOk(c) {
        FailedFail(tail, sendOk);
        assert Failed(cs, sendOk) == dead;
        assert Kept(cs, sendOk) == [c] + Kept(tail, sendOk);
        RemoveAllSkips(c, tail, dead, sendOk);
      } else {
        assert Failed(cs, sendOk) == [c] + dead;
        assert ([c] + dead)[1..] == dead;
        assert RemoveFirst(cs, c) == tail;
        assert Kept(cs, sendOk) == Kept(tail, sendOk);
      }
    }
  }

  /** A connection that is not removed stays in front. */
  lemma {:induction false} RemoveAllSkips(c: Conn, cs: seq<Conn>, dead: seq<Conn>, sendOk: Conn -> bool)
    requires sendOk(c) && forall d :: d in dead ==> !sendOk(d)
    ensures RemoveAll([c] + cs, dead) == [c] + RemoveAll(cs, dead)
    decreases |dead|
  {
    if dead != [] {
      assert c != dead[0];
      assert RemoveFirst([c] + cs, dead[0]) == [c] + RemoveFirst(cs, dead[0]);
      RemoveAllSkips(c, RemoveFirst(cs, dead[0]), dead[1..], sendOk);
    }
  }

  lemma {:induction false} FailedFail(cs: seq<Conn>, sendOk: Conn -> bool)
    ensures forall d :: d in Failed(cs, sendOk) ==> !sendOk(d)
  {
    if cs != [] {
      FailedFail(cs[1..], sendOk);
    }
  }

  /** The `assign` message that tells a client its player number. */
  function Assign(player: int): Value {
    Obj(map["type" := Str("assign"), "player" := Num(player as real)])
  }

  /** `accept_two_clients`: `accept(k)` is the outcome of the k-th accept
      (`None`: it raised, which ends the server). The first connection is
      player 1 and the second player 2, each told its number. */
  method AcceptTwoClients(accept: nat -> Option<Conn>) returns (ok: bool, conns: seq<Conn>, sent: seq<(Conn, Value)>)
    ensures ok <==> accept(0).Some? && accept(1).Some?
    ensures ok ==> conns == [accept(0).value, accept(1).value]
    ensures ok ==> sent == [(conns[0], Assign(1)), (conns[1], Assign(2))]
    ensures |sent| == |conns|
    ensures forall k :: 0 <= k < |sent| ==> sent[k] == (conns[k], Assign(k + 1))
  {
    conns := [];
    sent := [];
    while |conns| < 2
      invariant |conns| <= 2 && |sent| == |conns|
      invariant forall k :: 0 <= k < |conns| ==> accept(k).Some? && conns[k] == accept(k).value
      invariant forall k :: 0 <= k < |sent| ==> sent[k] == (conns[k], Assign(k + 1))
    {
      var r := accept(|conns|);
      if r.None? {
        return false, conns, sent;
      }
      conns := conns + [r.value];
      sent := sent + [(r.value, Assign(|conns|))];
    }
    ok := true;
  }

  class Server {
    var game: Game
    var commands: map<int, string>
    var controls: Controls
    var conns: seq<Conn>
    /** The stop event shared by the receive loops and the main loop. */
    var stopped: bool
    /** The `EXTRA_DIMENSIONS` setting the engine reads on reset. */
    var env: Option<string>

    ghost predicate Valid()
      reads this, game
    {
      game.Valid() && SlotsOk(Shared())
    }

    function Shared(): Slots
      reads this
    {
      Slots(commands, controls)
    }

    /** The server after the two clients connected: a fresh engine (see
        `Game`), every command `stop`, no control requested. */
    constructor(rawDims: Option<string>, template: Option<Template>, dir: (real, real), conns: seq<Conn>)
      ensures Valid() && fresh(game) && fresh(game.ball) && fresh(game.paddles[0]) && fresh(game.paddles[1])
      ensures Shared() == Slots(InitialCommands, InitialControls)
      ensures this.conns == conns && !stopped && env == rawDims && game.activeCols == ActiveCols(rawDims)
    {
      game := new Game(rawDims, template, dir);
      commands := InitialCommands;
      controls := InitialControls;
      this.conns := conns;
      stopped := false;
      env := rawDims;
    }

    /** One decoded message from `player`. */
    method Handle(player: int, msg: Option<Value>)
      modifies this
      ensures (game, conns, stopped, env) == old((game, conns, stopped, env))
      ensures Shared() == Dispatch(old(Shared()), player, msg)
    {
      if msg.Some? && msg.value.Obj? {
        var fields := msg.value.fields;
        var mtype := Lookup(fields, "type");
        var cmd := Lookup(fields, "cmd");
        if mtype == Str("cmd") {
          if IsMove(cmd) {
            commands := commands[player := cmd.s];
          }
        } else if mtype == Str("control") {
          if cmd == Str("new_game") {
            controls := controls.(newGame := true);
          } else if cmd == Str("set_dims") {
            var v := AsInt(Lookup(fields, "value"));
            if v.Some? {
              controls := controls.(setDims := v);
            }
          } else if cmd == Str("trajectory") {
            if player == 1 {
              var accepted := AcceptTrajectory(Lookup(fields, "value"));
              if accepted.Some? {
                controls := controls.(trajectory := accepted);
              }
            }
          } else if cmd == Str("pause") {
            var val := Lookup(fields, "value");
            if val.Bool? {
              controls := controls.(paused := Some(val.b));
            } else {
              controls := controls.(paused := Some(!controls.paused.GetOr(false)));
            }
          }
        }
      }
    }

    /** `buffer += data`, then every complete line handled in order; the
        incomplete rest is returned as the new buffer. `decode` stands for
        `json.loads(line.decode())`. */
    method ReceiveChunk(player: int, buffer: seq<byte>, data: seq<byte>, decode: seq<byte> -> Option<Value>)
      returns (rest: seq<byte>)
      modifies this
      ensures (game, conns, stopped, env) == old((game, conns, stopped, env))
      ensures Shared() == DispatchLines(old(Shared()), player, SplitLines(buffer + data).0, decode)
      ensures rest == SplitLines(buffer + data).1 && NoNewline(rest)
    {
      var buf := buffer + data;
      ghost var all := SplitLines(buf);
      ghost var s0 := Shared();
      ghost var done: seq<seq<byte>> := [];
      while NEWLINE in buf
        invariant done + SplitLines(buf).0 == all.0 && SplitLines(buf).1 == all.1
        invariant (game, conns, stopped, env) == old((game, conns, stopped, env))
        invariant Shared() == DispatchLines(s0, player, done, decode)
        decreases |buf|
      {
        var (line, tail) := SplitOnce(buf);
        Handle(player, decode(line));
        FrameStep(done, buf, all);
        DispatchLinesSnoc(s0, player, done, line, decode);
        done := done + [line];
        buf := tail;
      }
      assert done == all.0;
      SplitLinesSound(buffer + data);
      rest := buf;
    }

    /** `recv_loop`: `chunks` are the results of successive `recv` calls; an
        empty one means the client closed. The loop runs only while the
        stop event is clear, and sets it when it ends. */
    method RecvLoop(player: int, chunks: seq<seq<byte>>, decode: seq<byte> -> Option<Value>)
      modifies this
      ensures (game, conns, env) == old((game, conns, env)) && stopped
      ensures Shared() == if old(stopped) then old(Shared()) else Received(old(Shared()), player, chunks, decode)
    {
      var buffer: seq<byte> := [];
      ghost var s0 := Shared();
      ghost var got: seq<byte> := [];
      var i := 0;
      assert SplitLines(got) == ([], []);
      while i < |chunks| && !stopped
        invariant 0 <= i <= Open(chunks)
        invariant (game, conns, stopped, env) == old((game, conns, stopped, env))
        invariant got == Concat(chunks[..i])
        invariant stopped ==> got == []
        invariant buffer == SplitLines(got).1
        invariant Shared() == DispatchLines(s0, player, SplitLines(got).0, decode)
      {
        var data := chunks[i];
        if data == [] {
          break;
        }
        buffer := ReceiveChunk(player, buffer, data, decode);
        ReceiveInParts(s0, player, got, data, decode);
        SplitLinesAppend(got, data);
        ConcatSnoc(chunks, i);
        got := got + data;
        i := i + 1;
      }
      if !old(stopped) {
        assert i == Open(chunks);
        assert Shared() == Received(s0, player, chunks, decode);
      } else {
        assert SplitLines(got) == ([], []);
      }
      stopped := true;
    }

    /** Reads and clears the pending trajectory. */
    method TakeTrajectory() returns (traj: Value)
      modifies this
      ensures (game, commands, conns, stopped, env) == old((game, commands, conns, stopped, env))
      ensures traj == TrajectoryEntry(old(controls.trajectory))
      ensures controls == old(controls).(trajectory := None)
    {
      traj := Null;
      if controls.trajectory.Some? {
        traj := TrajectoryValue(controls.trajectory.value);
        controls := controls.(trajectory := None);
      }
    }

    /** The broadcast: every connection is sent the state; those whose send
        failed are collected and then removed. */
    method Prune(sendOk: Conn -> bool)
      modifies this
      ensures (game, commands, controls, stopped, env) == old((game, commands, controls, stopped, env))
      ensures conns == Kept(old(conns), sendOk)
    {
      var snapshot := conns;
      var dead: seq<Conn> := [];
      var i := 0;
      while i < |snapshot|
        invariant 0 <= i <= |snapshot|
        invariant dead == Failed(snapshot[..i], sendOk)
        invariant conns == snapshot
        invariant (game, commands, controls, stopped, env) == old((game, commands, controls, stopped, env))
      {
        if !sendOk(snapshot[i]) {
          dead := dead + [snapshot[i]];
        }
        FailedSnoc(snapshot[..i], snapshot[i], sendOk);
        assert snapshot[..i + 1] == snapshot[..i] + [snapshot[i]];
        i := i + 1;
      }
      assert snapshot[..i] == snapshot;
      RemoveFailed(snapshot, sendOk);
      var j := 0;
      while j < |dead|
        invariant 0 <= j <= |dead|
        invariant (game, commands, controls, stopped, env) == old((game, commands, controls, stopped, env))
        invariant RemoveAll(conns, dead[j..]) == Kept(snapshot, sendOk)
      {
        assert dead[j..][1..] == dead[j + 1..];
        conns := RemoveFirst(conns, dead[j]);
        j := j + 1;
      }
    }

    /** The control requests of a tick: a dimension request sets
        `EXTRA_DIMENSIONS` to the requested number and resets the game, a
        new-game request resets it too; both requests are then cleared.
        `first` and `second` stand for what each reset reads from outside
        (the template file and the random launch directions). */
    method ApplyControls(first: (Option<Template>, (real, real), (real, real)),
                         second: (Option<Template>, (real, real), (real, real)))
      requires Valid()
      modifies this, game
      ensures Valid() && game == old(game)
      ensures (commands, conns, stopped) == old((commands, conns, stopped))
      ensures controls == old(controls).(setDims := None, newGame := false)
      ensures env == if old(controls.setDims).Some? then Some(IntToString(old(controls.setDims).value)) else old(env)
      ensures old(controls.newGame) ==> game.ResetTo(ActiveCols(env), second.0, second.1)
      ensures old(controls.setDims).Some? && !old(controls.newGame) ==> game.ResetTo(ActiveCols(env), first.0, first.1)
      ensures old(controls.newGame) && second.0.None? ==>
                game.ResetData(ActiveCols(env), if old(controls.setDims).Some? then first.0 else None, old(game.Data()))
      ensures old(controls.setDims).Some? && !old(controls.newGame) ==>
                game.ResetData(ActiveCols(env), first.0, old(game.Data()))
      ensures old(controls.setDims).None? && !old(controls.newGame) ==>
                game.Current() == old(game.Current()) && game.ball == old(game.ball)
                && game.paddles == old(game.paddles) && game.board == old(game.board)
                && game.Data() == old(game.Data())
    {
      ApplyDims(first);
      ApplyNewGame(second);
    }

    /** A pending dimension request: write it into `EXTRA_DIMENSIONS`, reset
        the game and clear the request. */
    method ApplyDims(reset: (Option<Template>, (real, real), (real, real)))
      requires Valid()
      modifies this, game
      ensures Valid() && game == old(game)
      ensures (commands, conns, stopped) == old((commands, conns, stopped))
      ensures controls == old(controls).(setDims := None)
      ensures env == if old(controls.setDims).Some? then Some(IntToString(old(controls.setDims).value)) else old(env)
      ensures old(controls.setDims).Some? ==> game.ResetTo(ActiveCols(env), reset.0, reset.1)
      ensures old(controls.setDims).Some? ==> game.ResetData(ActiveCols(env), reset.0, old(game.Data()))
      ensures old(controls.setDims).None? ==> unchanged(game)
    {
      if controls.setDims.Some? {
        env := Some(IntToString(controls.setDims.value));
        game.ResetGame(env, reset.0, reset.1, reset.2);
        controls := controls.(setDims := None);
      }
    }

    /** A pending new-game request: reset the game and clear the flag. */
    method ApplyNewGame(reset: (Option<Template>, (real, real), (real, real)))
      requires Valid()
      modifies this, game
      ensures Valid() && game == old(game)
      ensures (commands, conns, stopped, env) == old((commands, conns, stopped, env))
      ensures controls == old(controls).(newGame := false)
      ensures old(controls.newGame) ==> game.ResetTo(ActiveCols(env), reset.0, reset.1)
      ensures old(controls.newGame) ==> game.ResetData(ActiveCols(env), reset.0, old(game.Data()))
      ensures !old(controls.newGame) ==> unchanged(game)
    {
      if controls.newGame {
        game.ResetGame(env, reset.0, reset.1, reset.2);
        controls := controls.(newGame := false);
      }
    }

    /** The engine step of a frame, skipped while paused. */
    method Advance(paused: bool, cmds: map<int, string>, traj: Value, now: real, cosSin: real -> (real, real))
      requires Valid()
      modifies game, game.ball, game.paddles
      ensures Valid()
      ensures (game.ball, game.paddles, game.board) == old((game.ball, game.paddles, game.board))
      ensures paused ==> game.Current() == old(game.Current())
      ensures !paused ==> game.Current() == Step(old(game.Current()), game.board, FRAME_DT, cmds, traj, now, cosSin).0
      ensures game.Data() == EngineData(old(game.Data()), old(game.Current()), game.board, paused, cmds, traj, now, cosSin)
    {
      if !paused {
        var _ := game.Update(FRAME_DT, cmds, traj, now, cosSin);
      }
    }

    /** The engine part of a frame: the pending trajectory is consumed,
        the engine steps by one frame unless paused, then the dimension and
        new-game requests are applied. */
    method RunEngine(now: real, cosSin: real -> (real, real),
                     first: (Option<Template>, (real, real), (real, real)),
                     second: (Option<Template>, (real, real), (real, real)))
      requires Valid()
      modifies this, game, game.ball, game.paddles
      ensures Valid() && game == old(game)
      ensures (commands, conns, stopped) == old((commands, conns, stopped))
      ensures controls == AfterTick(old(controls))
      ensures env == if old(controls.setDims).Some? then Some(IntToString(old(controls.setDims).value)) else old(env)
      ensures old(controls.setDims).Some? ==>
                game.activeCols == if AllowedCols(old(controls.setDims).value) then old(controls.setDims).value else COLS
      ensures old(controls.newGame) ==> game.ResetTo(ActiveCols(env), second.0, second.1)
      ensures old(controls.setDims).Some? && !old(controls.newGame) ==> game.ResetTo(ActiveCols(env), first.0, first.1)
      ensures old(controls.newGame) && second.0.None? ==>
                game.ResetData(ActiveCols(env), if old(controls.setDims).Some? then first.0 else None,
                               EngineData(old(game.Data()), old(game.Current()), old(game.board), old(controls.paused).GetOr(false),
                                      PlayerCommands(old(commands)), TrajectoryEntry(old(controls.trajectory)), now, cosSin))
      ensures old(controls.setDims).Some? && !old(controls.newGame) ==>
                game.ResetData(ActiveCols(env), first.0,
                               EngineData(old(game.Data()), old(game.Current()), old(game.board), old(controls.paused).GetOr(false),
                                      PlayerCommands(old(commands)), TrajectoryEntry(old(controls.trajectory)), now, cosSin))
      ensures old(controls.setDims).None? && !old(controls.newGame) && old(controls.paused).GetOr(false) ==>
                game.Current() == old(game.Current())
      ensures old(controls.setDims).None? && !old(controls.newGame) && !old(controls.paused).GetOr(false) ==>
                game.Current() == Step(old(game.Current()), old(game.board), FRAME_DT, PlayerCommands(old(commands)),
                                       TrajectoryEntry(old(controls.trajectory)), now, cosSin).0
    {
      ghost var c0 := controls;
      var playerCommands := PlayerCommands(commands);
      var traj := TakeTrajectory();
      Advance(controls.paused.GetOr(false), playerCommands, traj, now, cosSin);
      assert controls == c0.(trajectory := None);
      ApplyControls(first, second);
      if c0.setDims.Some? {
        DimsSetting(c0.setDims.value);
      }
    }

    /** The broadcast part of a frame: the state with the pause flag is
        sent to every connection, failed connections are dropped, and the
        loop stops after a game over or once no connection is left. */
    method Publish(now: real, sendOk: Conn -> bool) returns (state: Snapshot, paused: bool)
      requires Valid()
      modifies this
      ensures Valid()
      ensures (game, commands, controls, env) == old((game, commands, controls, env))
      ensures paused == controls.paused.GetOr(false)
      ensures game.Snapshots(state, now)
      ensures conns == Kept(old(conns), sendOk)
      ensures stopped == (old(stopped) || game.gameOver.Some? || conns == [])
    {
      state := game.GetState(now);
      paused := controls.paused.GetOr(false);
      Prune(sendOk);
      StopIfDone(state.gameOver.Some?);
    }

    /** The end of a frame: the stop event is set after a game over
        (`over`) or once no connection is left. */
    method StopIfDone(over: bool)
      modifies this
      ensures (game, commands, controls, conns, env) == old((game, commands, controls, conns, env))
      ensures stopped == (old(stopped) || over || conns == [])
    {
      if over {
        stopped := true;
      } else if conns == [] {
        stopped := true;
      }
    }

    /** One frame of the main loop: `RunEngine`, then `Publish`. */
    method Tick(now: real, cosSin: real -> (real, real), sendOk: Conn -> bool,
                first: (Option<Template>, (real, real), (real, real)),
                second: (Option<Template>, (real, real), (real, real)))
      returns (state: Snapshot, paused: bool)
      requires Valid()
      modifies this, game, game.ball, game.paddles
      ensures Valid() && game == old(game)
      ensures commands == old(commands)
      ensures controls == AfterTick(old(controls))
      ensures env == if old(controls.setDims).Some? then Some(IntToString(old(controls.setDims).value)) else old(env)
      ensures old(controls.setDims).Some? ==>
                game.activeCols == if AllowedCols(old(controls.setDims).value) then old(controls.setDims).value else COLS
      ensures old(controls.newGame) ==> game.ResetTo(ActiveCols(env), second.0, second.1)
      ensures old(controls.setDims).Some? && !old(controls.newGame) ==> game.ResetTo(ActiveCols(env), first.0, first.1)
      ensures old(controls.newGame) && second.0.None? ==>
                game.ResetData(ActiveCols(env), if old(controls.setDims).Some? then first.0 else None,
                               EngineData(old(game.Data()), old(game.Current()), old(game.board), old(controls.paused).GetOr(false),
                                      PlayerCommands(old(commands)), TrajectoryEntry(old(controls.trajectory)), now, cosSin))
      ensures old(controls.setDims).Some? && !old(controls.newGame) ==>
                game.ResetData(ActiveCols(env), first.0,
                               EngineData(old(game.Data()), old(game.Current()), old(game.board), old(controls.paused).GetOr(false),
                                      PlayerCommands(old(commands)), TrajectoryEntry(old(controls.trajectory)), now, cosSin))
      ensures old(controls.setDims).None? && !old(controls.newGame) && old(controls.paused).GetOr(false) ==>
                game.Current() == old(game.Current())
      ensures old(controls.setDims).None? && !old(controls.newGame) && !old(controls.paused).GetOr(false) ==>
                game.Current() == Step(old(game.Current()), old(game.board), FRAME_DT, PlayerCommands(old(commands)),
                                       TrajectoryEntry(old(controls.trajectory)), now, cosSin).0
      ensures paused == old(controls.paused).GetOr(false)
      ensures game.Snapshots(state, now)
      ensures conns == Kept(old(conns), sendOk)
      ensures stopped == (old(stopped) || game.gameOver.Some? || conns == [])
    {
      RunEngine(now, cosSin, first, second);
      state, paused := Publish(now, sendOk);
    }
  }
}
