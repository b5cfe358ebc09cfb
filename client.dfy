/** The client's decision rules (client/client.py): held keys become a
    movement command sent only when it changes, the trajectory arrow turns
    in 5 degree steps, a chosen trajectory is clamped to the allowed range,
    a dimension request is checked before it is sent, and the network
    reader keeps the latest state message. Each handler is specified by a
    pure transition on the client's state (`ClientState`). */
module Client {
  import opened Values
  import opened Framing
  import opened Board
  import opened Physics
  import Server

  /** `local`: both players on one keyboard against a local engine;
      `network`: one player of a server game. */
  datatype Mode = Local | Network

  const TRAJ_MIN: real := 0.0
  const TRAJ_MAX: real := 360.0

  /** The fields the handlers read and write. `online` stands for a
      connected socket; `outbox` lists the messages written to it, in order
      (a failed send is silently dropped by the source, and is left to the
      network); `localCommands` and `localTrajectory` form the local
      engine's `player_commands`; `localDims` is the `EXTRA_DIMENSIONS`
      setting a local dimension request leaves before the local reset. */
  datatype ClientState = ClientState(player: Value, online: bool, keys: set<string>, currentCmd: string,
                                     localCommands: map<int, string>, localTrajectory: Option<Value>,
                                     trajAngle: real, waiting: bool, paused: bool,
                                     outbox: seq<Value>, localDims: Option<string>)

  /** Python's `==` between a JSON value and an int (a bool is an int). */
  predicate IsPlayer(v: Value, n: int) {
    (v.Num? && v.r == n as real) || (v.Bool? && (if v.b then 1 else 0) == n)
  }

  /** Whether this client may choose the trajectory. */
  predicate Allowed(mode: Mode, player: Value) {
    mode == Local || IsPlayer(player, 1)
  }

  function CmdMessage(cmd: string): Value {
    Obj(map["type" := Str("cmd"), "cmd" := Str(cmd)])
  }

  function ControlMessage(cmd: string): Value {
    Obj(map["type" := Str("control"), "cmd" := Str(cmd)])
  }

  function ValueMessage(cmd: string, value: Value): Value {
    Obj(map["type" := Str("control"), "cmd" := Str(cmd), "value" := value])
  }

  /** `send_json` on the client's socket. */
  function Sent(s: ClientState, msg: Value): (r: ClientState)
    ensures r.outbox == if s.online then s.outbox + [msg] else s.outbox
    ensures r == s.(outbox := r.outbox)
  {
    if s.online then s.(outbox := s.outbox + [msg]) else s
  }

  // ---------------------------------------------------------------------
  // Movement keys

  /** The network command for the held keys: `left` when `a` or the left
      arrow is held, else `right` when `d` or the right arrow is, else
      `stop` (the same rule for player 1, player 2 and an unassigned
      client). */
  function HeldCommand(keys: set<string>): (cmd: string)
    ensures cmd == "left" <==> "a" in keys || "left" in keys
    ensures cmd == "right" <==> !("a" in keys || "left" in keys) && ("d" in keys || "right" in keys)
    ensures cmd == "stop" <==> !("a" in keys || "left" in keys || "d" in keys || "right" in keys)
  {
    if "a" in keys || "left" in keys then "left"
    else if "d" in keys || "right" in keys then "right"
    else "stop"
  }

  /** A local player's command from its own pair of keys, left first. */
  function PairCommand(keys: set<string>, leftKey: string, rightKey: string): (cmd: string)
    ensures cmd == "left" <==> leftKey in keys
    ensures cmd == "right" <==> leftKey !in keys && rightKey in keys
    ensures cmd == "stop" <==> leftKey !in keys && rightKey !in keys
  {
    if leftKey in keys then "left" else if rightKey in keys then "right" else "stop"
  }

  /** What `send_json` writes: the message when connected, nothing otherwise. */
  function Written(msg: Value, online: bool): seq<Value> {
    if online then [msg] else []
  }

  /** `send_command(cmd)`: only a network client writes it. */
  function SendCommand(s: ClientState, mode: Mode, cmd: string): ClientState {
    if mode == Network then Sent(s, CmdMessage(cmd)) else s
  }

  /** The movement part of a key handler: a network client records and
      sends the command of the held keys when it differs from the current
      one; a local client sets the top player from `a`/`d` and the bottom
      one from the arrows. */
  function Steered(s: ClientState, mode: Mode): ClientState {
    if mode == Network then
      var cmd := HeldCommand(s.keys);
      if cmd != s.currentCmd then SendCommand(s.(currentCmd := cmd), mode, cmd) else s
    else
      s.(localCommands := s.localCommands[0 := PairCommand(s.keys, "a", "d")][1 := PairCommand(s.keys, "left", "right")])
  }

  /** A network command goes out only when it changes: the current command
      becomes that of the held keys, and one message carrying it is
      written exactly when it differs from the previous one (and the
      client is connected). Steering again with the same keys sends
      nothing more. */
  lemma SendOnlyOnChange(s: ClientState)
    ensures var r := Steered(s, Network);
            && r.currentCmd == HeldCommand(s.keys)
            && r.outbox == s.outbox + (if HeldCommand(s.keys) != s.currentCmd then Written(CmdMessage(HeldCommand(s.keys)), s.online) else [])
            && r == s.(currentCmd := r.currentCmd, outbox := r.outbox)
    ensures Steered(Steered(s, Network), Network) == Steered(s, Network)
  {
  }

  /** Local steering: each player is driven by its own keys only, left
      taking priority, and nothing is sent. */
  lemma LocalSteering(s: ClientState)
    ensures var r := Steered(s, Local);
            && r.localCommands == s.localCommands[0 := PairCommand(s.keys, "a", "d")][1 := PairCommand(s.keys, "left", "right")]
            && r.outbox == s.outbox && r.currentCmd == s.currentCmd
  {
  }

  // ---------------------------------------------------------------------
  // Trajectory selection

  /** Python's `a % 360` on a float: the remainder is never negative. */
  function Mod360(a: real): (r: real)
    ensures 0.0 <= r < 360.0
  {
    var k := (a / 360.0).Floor;
    a - (k as real) * 360.0
  }

  /** A value shifted by whole turns into `[0, 360)` is its remainder. */
  lemma Mod360Shift(x: real, k: int)
    requires 0.0 <= x - (k as real) * 360.0 < 360.0
    ensures Mod360(x) == x - (k as real) * 360.0
  {
    assert (x / 360.0).Floor == k;
  }

  /** The arrow turned by `delta` degrees: `(angle + delta) % 360`. */
  function Rotate(angle: real, delta: real): (r: real)
    ensures 0.0 <= r < 360.0
  {
    Mod360(angle + delta)
  }

  /** Turning 5 degrees one way and back returns the arrow, and within a
      turn a step adds exactly 5 degrees. */
  lemma RotateInverse(angle: real)
    requires 0.0 <= angle < 360.0
    ensures Rotate(Rotate(angle, 5.0), -5.0) == angle
    ensures Rotate(Rotate(angle, -5.0), 5.0) == angle
    ensures angle + 5.0 < 360.0 ==> Rotate(angle, 5.0) == angle + 5.0
  {
    if angle + 5.0 < 360.0 {
      Mod360Shift(angle + 5.0, 0);
    } else {
      Mod360Shift(angle + 5.0, 1);
    }
    Mod360Shift(angle, 0);
    if angle - 5.0 >= 0.0 {
      Mod360Shift(angle - 5.0, 0);
    } else {
      Mod360Shift(angle - 5.0, -1);
    }
  }

  /** A numeric trajectory raised to `TRAJ_MIN`, then lowered to `TRAJ_MAX`. */
  function ClampAngle(a: real): (r: real)
    ensures TRAJ_MIN <= r <= TRAJ_MAX
    ensures TRAJ_MIN <= a <= TRAJ_MAX ==> r == a
    ensures a < TRAJ_MIN ==> r == TRAJ_MIN
    ensures a > TRAJ_MAX ==> r == TRAJ_MAX
  {
    var r1 := if a < TRAJ_MIN then TRAJ_MIN else a;
    if r1 > TRAJ_MAX then TRAJ_MAX else r1
  }

  /** Whether a trajectory can be chosen now: the local engine's flag in
      local mode, the flag from the last server state otherwise. */
  function WaitingNow(s: ClientState, mode: Mode, engineWaiting: bool): bool {
    if mode == Local then engineWaiting else s.waiting
  }

  /** What the network client sends for a chosen `direction`: the clamped
      angle when `float` accepts it, the raw value otherwise. */
  function TrajectoryChoice(direction: Value): (v: Value)
    ensures AsFloat(direction).Some? ==> v == Num(ClampAngle(AsFloat(direction).value))
    ensures AsFloat(direction).None? ==> v == direction
  {
    match AsFloat(direction)
    case Some(a) => Num(ClampAngle(a))
    case None => direction
  }

  /** `choose_trajectory(direction)`: ignored unless a trajectory can be
      chosen; a local client hands the (clamped) choice to its engine, a
      connected network client sends it to the server; either way its own
      waiting flag clears. */
  function Chosen(s: ClientState, mode: Mode, direction: Value, engineWaiting: bool): ClientState {
    if !WaitingNow(s, mode, engineWaiting) then s
    else if mode == Local then
      (match AsFloat(direction)
       case Some(a) => s.(localTrajectory := Some(Num(ClampAngle(a))), trajAngle := ClampAngle(a), waiting := false)
       case None => s.(localTrajectory := Some(direction), waiting := false))
    else if !s.online then s
    else Sent(s, ValueMessage("trajectory", TrajectoryChoice(direction))).(waiting := false)
  }

  /** A choice made while no trajectory is awaited changes nothing. A choice
      made while one is awaited clears the client's waiting flag and hands
      the choice on: a local client stores it for its engine, a connected
      network client sends exactly one `trajectory` control holding it; a
      disconnected network client changes nothing. Numbers are clamped into
      the arc first, labels pass unchanged. */
  lemma ChoiceEffect(s: ClientState, mode: Mode, direction: Value, engineWaiting: bool)
    ensures !WaitingNow(s, mode, engineWaiting) ==> Chosen(s, mode, direction, engineWaiting) == s
    ensures WaitingNow(s, mode, engineWaiting) && mode == Local ==>
              var r := Chosen(s, mode, direction, engineWaiting);
              && !r.waiting && r.localTrajectory == Some(TrajectoryChoice(direction))
              && r.outbox == s.outbox && r.paused == s.paused && r.currentCmd == s.currentCmd
              && (AsFloat(direction).Some? ==> r.trajAngle == ClampAngle(AsFloat(direction).value))
              && (AsFloat(direction).None? ==> r.trajAngle == s.trajAngle)
    ensures WaitingNow(s, mode, engineWaiting) && mode == Network && s.online ==>
              Chosen(s, mode, direction, engineWaiting)
              == s.(waiting := false, outbox := s.outbox + [ValueMessage("trajectory", TrajectoryChoice(direction))])
    ensures mode == Network && !s.online ==> Chosen(s, mode, direction, engineWaiting) == s
  {
  }

  /** A numeric choice reaches the server inside the allowed range and is
      accepted as that angle; a label is passed on and accepted as such. */
  lemma ChoiceAccepted(direction: Value)
    ensures AsFloat(direction).Some? ==>
              AcceptTrajectory(TrajectoryChoice(direction)) == Some(Angle(ClampAngle(AsFloat(direction).value)))
    ensures direction.Str? && IsLabel(direction.s) ==>
              AcceptTrajectory(TrajectoryChoice(direction)) == Some(Label(direction.s))
  {
    if direction.Str? && IsLabel(direction.s) {
      LabelsAreNotNumbers();
    }
  }

  /** From player 1 the server stores the choice exactly as the client
      clamped it. */
  lemma ChoiceStored(slots: Server.Slots, a: real)
    ensures Server.Dispatch(slots, 1, Some(ValueMessage("trajectory", TrajectoryChoice(Num(a)))))
            == slots.(controls := slots.controls.(trajectory := Some(Angle(ClampAngle(a)))))
  {
    assert ValueMessage("trajectory", TrajectoryChoice(Num(a)))
           == Server.Message("control", Str("trajectory"), Num(ClampAngle(a)));
  }

  // ---------------------------------------------------------------------
  // Pause and dimensions

  /** `toggle_pause`: the local flag flips; a network client also asks the
      server to toggle, with one `pause` control when connected. Nothing
      else changes. */
  function Toggled(s: ClientState, mode: Mode): (r: ClientState)
    ensures r.paused == !s.paused
    ensures mode == Local ==> r.outbox == s.outbox
    ensures mode == Network ==> r.outbox == s.outbox + Written(ControlMessage("pause"), s.online)
    ensures r == s.(paused := r.paused, outbox := r.outbox)
  {
    var t := s.(paused := !s.paused);
    if mode == Local then t else Sent(t, ControlMessage("pause"))
  }

  /** Pausing twice restores the flag; locally it restores the whole
      client, and a connected network client has sent two `pause`
      controls, which the server's toggles cancel out. */
  lemma ToggleTwice(s: ClientState, mode: Mode, slots: Server.Slots, player: int)
    ensures Toggled(Toggled(s, mode), mode).paused == s.paused
    ensures mode == Local ==> Toggled(Toggled(s, mode), mode) == s
    ensures mode == Network && s.online ==>
              Toggled(Toggled(s, mode), mode).outbox == s.outbox + [ControlMessage("pause"), ControlMessage("pause")]
    ensures var once := Server.Dispatch(slots, player, Some(ControlMessage("pause")));
            Server.Dispatch(once, player, Some(ControlMessage("pause"))).controls.paused
            == Some(slots.controls.paused.GetOr(false))
  {
    ControlsReachServer(slots, player);
    var once := Server.Dispatch(slots, player, Some(ControlMessage("pause")));
    ControlsReachServer(once, player);
  }

  /** The column count `send_set_dimensions` accepts: `int(value)` must
      succeed and give 2, 4, 6 or 8. */
  function CheckedDims(value: Value): (r: Option<int>)
    ensures r.Some? <==> AsInt(value).Some? && AllowedCols(AsInt(value).value)
    ensures r.Some? ==> r == AsInt(value)
  {
    match AsInt(value)
    case Some(v) => if v <= 0 || v % 2 != 0 || !(v == 2 || v == 4 || v == 6 || v == 8) then None else Some(v)
    case None => None
  }

  /** `send_set_dimensions(value)`: a checked count becomes the local
      `EXTRA_DIMENSIONS` setting, or a `set_dims` request to the server. */
  function DimsRequested(s: ClientState, mode: Mode, value: Value): ClientState {
    match CheckedDims(value)
    case None => s
    case Some(v) =>
      if mode == Local then s.(localDims := Some(IntToString(v)))
      else Sent(s, ValueMessage("set_dims", Num(v as real)))
  }

  /** Every dimension request the client sends is honoured: the server
      stores it and the engine reset with it has exactly that many
      columns. */
  lemma DimsHonoured(slots: Server.Slots, player: int, value: Value)
    requires CheckedDims(value).Some?
    ensures var v := CheckedDims(value).value;
            && Server.Dispatch(slots, player, Some(ValueMessage("set_dims", Num(v as real))))
               == slots.(controls := slots.controls.(setDims := Some(v)))
            && ActiveCols(Some(IntToString(v))) == v
  {
    var v := CheckedDims(value).value;
    assert ValueMessage("set_dims", Num(v as real)) == Server.Message("control", Str("set_dims"), Num(v as real));
    assert Truncate(v as real) == v;
    Server.DimsSetting(v);
  }

  /** A request that is refused changes nothing, in either mode. */
  lemma DimsRefused(s: ClientState, mode: Mode, value: Value)
    ensures CheckedDims(value).None? ==> DimsRequested(s, mode, value) == s
    ensures CheckedDims(value).Some? && mode == Local ==>
              DimsRequested(s, mode, value).localDims == Some(IntToString(CheckedDims(value).value))
  {
  }

  /** `send_control('new_game')`: a network client asks the server for a
      new game; a local client resets its own engine, forgets any chosen
      trajectory and waits for a new one. */
  function NewGameRequested(s: ClientState, mode: Mode): ClientState {
    if mode == Local then s.(localTrajectory := None, waiting := true)
    else Sent(s, ControlMessage("new_game"))
  }

  /** The controls a network client sends without a value reach the
      server as meant: `new_game` raises the new-game flag and `pause`
      toggles the pause flag, whoever sends them. */
  lemma ControlsReachServer(slots: Server.Slots, player: int)
    ensures Server.Dispatch(slots, player, Some(ControlMessage("new_game")))
            == slots.(controls := slots.controls.(newGame := true))
    ensures Server.Dispatch(slots, player, Some(ControlMessage("pause")))
            == slots.(controls := slots.controls.(paused := Some(!slots.controls.paused.GetOr(false))))
  {
    assert Lookup(ControlMessage("pause").fields, "value") == Null;
  }

  /** A local new game waits for a fresh trajectory and sends nothing; a
      network one sends one `new_game` request when connected and leaves
      everything else to the server's next state. */
  lemma NewGameEffect(s: ClientState, mode: Mode)
    ensures mode == Local ==>
              var r := NewGameRequested(s, mode);
              r.waiting && r.localTrajectory.None? && r.outbox == s.outbox
    ensures mode == Network ==>
              NewGameRequested(s, mode) == s.(outbox := s.outbox + Written(ControlMessage("new_game"), s.online))
  {
  }

  /** Python's `bool(v)` on a decoded JSON value. */
  predicate Truthy(v: Value) {
    match v
    case Null => false
    case Bool(b) => b
    case Num(r) => r != 0.0
    case Str(t) => t != []
    case Arr(items) => items != []
    case Obj(fields) => fields != map[]
  }

  /** The flag refresh of each render frame: a network client takes the
      waiting and paused flags from the last state shown (an absent flag
      reads as false); a local client takes the waiting flag from its
      engine. */
  function Synced(s: ClientState, mode: Mode, shown: Value, engineWaiting: bool): ClientState {
    if mode == Local then s.(waiting := engineWaiting)
    else if shown.Obj? then
      s.(waiting := Truthy(Lookup(shown.fields, "waiting_trajectory")),
         paused := Truthy(Lookup(shown.fields, "paused")))
    else s
  }

  /** After a refresh the network client's flags are the server's: the
      waiting flag and the pause flag it broadcast, and nothing else of
      the client changes; a second refresh from the same state changes
      nothing. */
  lemma SyncFollowsServer(s: ClientState, fields: map<string, Value>, w: bool, p: bool, engineWaiting: bool)
    requires "waiting_trajectory" in fields && fields["waiting_trajectory"] == Bool(w)
    requires "paused" in fields && fields["paused"] == Bool(p)
    ensures Synced(s, Network, Obj(fields), engineWaiting) == s.(waiting := w, paused := p)
    ensures var r := Synced(s, Network, Obj(fields), engineWaiting);
            Synced(r, Network, Obj(fields), engineWaiting) == r
  {
  }

  // ---------------------------------------------------------------------
  // Key handlers

  /** `on_key_press(key)` (`key` is the lower-cased key name): the key is
      held; `p` toggles pause; while a trajectory can be chosen by this
      client the movement keys turn the arrow and Enter confirms it;
      otherwise the held keys steer. */
  function Pressed(s: ClientState, mode: Mode, key: string, engineWaiting: bool): ClientState {
    var s1 := s.(keys := s.keys + {key});
    if key == "p" then Toggled(s1, mode)
    else if WaitingNow(s, mode, engineWaiting) && Allowed(mode, s.player) then
      if key == "left" || key == "a" then s1.(trajAngle := Rotate(s1.trajAngle, -5.0))
      else if key == "right" || key == "d" then s1.(trajAngle := Rotate(s1.trajAngle, 5.0))
      else if key == "return" || key == "enter" then Chosen(s1, mode, Num(s1.trajAngle), engineWaiting)
      else Steered(s1, mode)
    else Steered(s1, mode)
  }

  /** `on_key_release(key)`: the key is no longer held; unless this client
      is choosing a trajectory, the remaining keys steer. */
  function Released(s: ClientState, mode: Mode, key: string): ClientState {
    var s1 := s.(keys := s.keys - {key});
    if s.waiting && Allowed(mode, s.player) then s1 else Steered(s1, mode)
  }

  /** While choosing, the arrow keys only turn the arrow: no command is
      recorded or sent, and the angle stays within a turn. */
  lemma ArrowWhileChoosing(s: ClientState, mode: Mode, key: string, engineWaiting: bool)
    requires WaitingNow(s, mode, engineWaiting) && Allowed(mode, s.player)
    requires key == "left" || key == "a" || key == "right" || key == "d"
    ensures var r := Pressed(s, mode, key, engineWaiting);
            && r.outbox == s.outbox && r.currentCmd == s.currentCmd && r.localCommands == s.localCommands
            && 0.0 <= r.trajAngle < 360.0
            && r.trajAngle == Rotate(s.trajAngle, if key == "left" || key == "a" then -5.0 else 5.0)
  {
  }

  /** Pressing and then releasing a movement key while steering over the
      network leaves the current command as the other held keys decide. */
  lemma PressRelease(s: ClientState, key: string)
    requires key != "p" && !s.waiting
    requires key !in s.keys
    ensures Released(Pressed(s, Network, key, false), Network, key).keys == s.keys
    ensures Released(Pressed(s, Network, key, false), Network, key).currentCmd == HeldCommand(s.keys)
  {
    assert s.keys + {key} - {key} == s.keys;
  }

  // ---------------------------------------------------------------------
  // The network reader

  /** The state shown after the reader handled `lines`: that of the last
      `state` message, or `shown` when there was none. */
  function Shown(shown: Value, lines: seq<seq<byte>>, decode: seq<byte> -> Option<Value>): Value
    decreases |lines|
  {
    if lines == [] then shown
    else
      var msg := decode(lines[|lines| - 1]);
      if msg.Some? && msg.value.Obj? && Lookup(msg.value.fields, "type") == Str("state")
      then Lookup(msg.value.fields, "state")
      else Shown(shown, lines[..|lines| - 1], decode)
  }

  predicate IsStateLine(line: seq<byte>, decode: seq<byte> -> Option<Value>) {
    var msg := decode(line);
    msg.Some? && msg.value.Obj? && Lookup(msg.value.fields, "type") == Str("state")
  }

  /** The last state message wins: lines after it that carry no state do
      not change what is shown, and the lines before it do not matter. */
  lemma {:induction false} LastStateWins(shown: Value, a: seq<seq<byte>>, line: seq<byte>, b: seq<seq<byte>>,
                                         decode: seq<byte> -> Option<Value>)
    requires IsStateLine(line, decode)
    requires forall k :: 0 <= k < |b| ==> !IsStateLine(b[k], decode)
    ensures Shown(shown, a + [line] + b, decode) == Lookup(decode(line).value.fields, "state")
    decreases |b|
  {
    if b == [] {
      assert a + [line] + b == a + [line];
    } else {
      var n := |b| - 1;
      assert (a + [line] + b)[..|a + [line] + b| - 1] == a + [line] + b[..n];
      assert (a + [line] + b)[|a + [line] + b| - 1] == b[n];
      assert !IsStateLine(b[n], decode);
      LastStateWins(shown, a, line, b[..n], decode);
    }
  }

  lemma {:induction false} ShownAppend(shown: Value, a: seq<seq<byte>>, b: seq<seq<byte>>,
                                       decode: seq<byte> -> Option<Value>)
    ensures Shown(shown, a + b, decode) == Shown(Shown(shown, a, decode), b, decode)
    decreases |b|
  {
    if b == [] {
      assert a + b == a;
    } else {
      var n := |b| - 1;
      assert (a + b)[..|a + b| - 1] == a + b[..n];
      assert (a + b)[|a + b| - 1] == b[n];
      ShownAppend(shown, a, b[..n], decode);
    }
  }

  /** What the client shows before any state arrives: an 800 by 600 window,
      an empty ball, two empty paddles and the score 0 to 0. */
  const InitialShown: Value :=
    Obj(map["width" := Num(800.0), "height" := Num(600.0), "ball" := Obj(map[]),
            "paddles" := Arr([Obj(map[]), Obj(map[])]), "scores" := Arr([Num(0.0), Num(0.0)])])

  class Client {
    const mode: Mode
    var player: Value
    var online: bool
    var running: bool
    /** The last state received from the server (network mode). */
    var state: Value
    var keys: set<string>
    var currentCmd: string
    var localCommands: map<int, string>
    var localTrajectory: Option<Value>
    var trajAngle: real
    var waiting: bool
    var paused: bool
    var outbox: seq<Value>
    var localDims: Option<string>

    function State(): ClientState
      reads this
    {
      ClientState(player, online, keys, currentCmd, localCommands, localTrajectory, trajAngle, waiting, paused,
                  outbox, localDims)
    }

    /** A client before it connects: no player number, nothing held, the
        command `stop`, the arrow pointing down (270 degrees), not waiting,
        not paused; a local client starts both players on `stop`. */
    constructor(mode: Mode)
      ensures this.mode == mode && running && state == InitialShown
      ensures State() == ClientState(Null, false, {}, "stop",
                                     if mode == Local then map[0 := "stop", 1 := "stop"] else map[],
                                     None, 270.0, false, false, [], None)
    {
      this.mode := mode;
      player := Null;
      online := false;
      running := true;
      state := InitialShown;
      keys := {};
      currentCmd := "stop";
      localCommands := if mode == Local then map[0 := "stop", 1 := "stop"] else map[];
      localTrajectory := None;
      trajAngle := 270.0;
      waiting := false;
      paused := false;
      outbox := [];
      localDims := None;
    }

    /** The connection is made and the server's `assign` message names
        this client's player. */
    method Assign(number: Value)
      modifies this
      ensures State() == old(State()).(player := number, online := true)
      ensures (running, state) == old((running, state))
    {
      online := true;
      player := number;
    }

    method Send(msg: Value)
      modifies this
      ensures State() == Sent(old(State()), msg)
      ensures (running, state) == old((running, state))
    {
      if online {
        outbox := outbox + [msg];
      }
    }

    method SendCommandTo(cmd: string)
      modifies this
      ensures State() == SendCommand(old(State()), mode, cmd)
      ensures (running, state) == old((running, state))
    {
      if mode == Network {
        Send(CmdMessage(cmd));
      }
    }

    method Steer()
      modifies this
      ensures State() == Steered(old(State()), mode)
      ensures (running, state) == old((running, state))
    {
      if mode == Network {
        var cmd := "stop";
        if "a" in keys || "left" in keys {
          cmd := "left";
        } else if "d" in keys || "right" in keys {
          cmd := "right";
        }
        if cmd != currentCmd {
          currentCmd := cmd;
          SendCommandTo(cmd);
        }
      } else {
        var cmd0 := "stop";
        if "a" in keys {
          cmd0 := "left";
        } else if "d" in keys {
          cmd0 := "right";
        }
        var cmd1 := "stop";
        if "left" in keys {
          cmd1 := "left";
        } else if "right" in keys {
          cmd1 := "right";
        }
        localCommands := localCommands[0 := cmd0];
        localCommands := localCommands[1 := cmd1];
      }
    }

    method TogglePause()
      modifies this
      ensures State() == Toggled(old(State()), mode)
      ensures (running, state) == old((running, state))
    {
      paused := !paused;
      if mode == Network {
        Send(ControlMessage("pause"));
      }
    }

    /** `choose_trajectory(direction)`; `engineWaiting` is the local
        engine's waiting flag (local mode). */
    method ChooseTrajectory(direction: Value, engineWaiting: bool)
      modifies this
      ensures State() == Chosen(old(State()), mode, direction, engineWaiting)
      ensures (running, state) == old((running, state))
    {
      var angle := AsFloat(direction);
      var waitingNow := if mode == Local then engineWaiting else waiting;
      if !waitingNow {
        return;
      }
      if mode == Local {
        StoreChoice(direction, angle);
      } else {
        SendChoice(direction, angle);
      }
    }

    /** The local branch of `choose_trajectory`: a number is clamped and
        becomes both the engine's trajectory entry and the arrow angle, a
        label is stored as it is; the arrow is hidden. */
    method StoreChoice(direction: Value, angle: Option<real>)
      requires mode == Local && angle == AsFloat(direction)
      modifies this
      ensures State() == Chosen(old(State()), Local, direction, true)
      ensures (running, state) == old((running, state))
    {
      ghost var s0 := State();
      if angle.Some? {
        var a := angle.value;
        if a < TRAJ_MIN {
          a := TRAJ_MIN;
        }
        if a > TRAJ_MAX {
          a := TRAJ_MAX;
        }
        assert a == ClampAngle(angle.value);
        localTrajectory := Some(Num(a));
        trajAngle := a;
        waiting := false;
        assert State() == s0.(localTrajectory := Some(Num(a)), trajAngle := a, waiting := false);
      } else {
        localTrajectory := Some(direction);
        waiting := false;
        assert State() == s0.(localTrajectory := Some(direction), waiting := false);
      }
    }

    /** The network branch of `choose_trajectory`: a connected client sends
        the clamped number, or the label, in one `trajectory` control and
        stops waiting; a disconnected one does nothing. */
    method SendChoice(direction: Value, angle: Option<real>)
      requires mode == Network && waiting && angle == AsFloat(direction)
      modifies this
      ensures State() == Chosen(old(State()), Network, direction, false)
      ensures (running, state) == old((running, state))
    {
      if !online {
        return;
      }
      var val := direction;
      if angle.Some? {
        var a := angle.value;
        if a < TRAJ_MIN {
          a := TRAJ_MIN;
        }
        if a > TRAJ_MAX {
          a := TRAJ_MAX;
        }
        assert a == ClampAngle(angle.value);
        val := Num(a);
      }
      assert val == TrajectoryChoice(direction);
      Send(ValueMessage("trajectory", val));
      waiting := false;
    }

    method SendSetDimensions(value: Value)
      modifies this
      ensures State() == DimsRequested(old(State()), mode, value)
      ensures (running, state) == old((running, state))
    {
      var parsed := AsInt(value);
      if parsed.None? {
        return;
      }
      var v := parsed.value;
      if v <= 0 || v % 2 != 0 || !(v == 2 || v == 4 || v == 6 || v == 8) {
        return;
      }
      if mode == Local {
        localDims := Some(IntToString(v));
      } else {
        Send(ValueMessage("set_dims", Num(v as real)));
      }
    }

    method RequestNewGame()
      modifies this
      ensures State() == NewGameRequested(old(State()), mode)
      ensures (running, state) == old((running, state))
    {
      if mode == Local {
        localTrajectory := None;
        waiting := true;
      } else {
        Send(ControlMessage("new_game"));
      }
    }

    /** The flag refresh at the start of a render frame; `engineWaiting`
        is the local engine's waiting flag. */
    method SyncFlags(engineWaiting: bool)
      modifies this
      ensures State() == Synced(old(State()), mode, state, engineWaiting)
      ensures (running, state) == old((running, state))
    {
      if mode == Local {
        waiting := engineWaiting;
      } else if state.Obj? {
        waiting := Truthy(Lookup(state.fields, "waiting_trajectory"));
        paused := Truthy(Lookup(state.fields, "paused"));
      }
    }

    method OnKeyPress(key: string, engineWaiting: bool)
      modifies this
      ensures State() == Pressed(old(State()), mode, key, engineWaiting)
      ensures (running, state) == old((running, state))
    {
      ghost var s0 := State();
      keys := keys + {key};
      if key == "p" {
        TogglePause();
        return;
      }
      var allowed := mode == Local || IsPlayer(player, 1);
      var waitingNow := if mode == Local then engineWaiting else waiting;
      if waitingNow && allowed {
        if key == "left" || key == "a" {
          trajAngle := Rotate(trajAngle, -5.0);
          return;
        }
        if key == "right" || key == "d" {
          trajAngle := Rotate(trajAngle, 5.0);
          return;
        }
        if key == "return" || key == "enter" {
          ChooseTrajectory(Num(trajAngle), engineWaiting);
          return;
        }
      }
      Steer();
    }

    method OnKeyRelease(key: string)
      modifies this
      ensures State() == Released(old(State()), mode, key)
      ensures (running, state) == old((running, state))
    {
      if key in keys {
        keys := keys - {key};
      } else {
        assert keys - {key} == keys;
      }
      var allowed := mode == Local || IsPlayer(player, 1);
      if waiting && allowed {
        return;
      }
      Steer();
    }

    /** `buffer += data` in the reader, then every complete line handled:
        a `state` message replaces the shown state. */
    method ReadChunk(buffer: seq<byte>, data: seq<byte>, decode: seq<byte> -> Option<Value>)
      returns (rest: seq<byte>)
      modifies this
      ensures State() == old(State()) && running == old(running)
      ensures state == Shown(old(state), SplitLines(buffer + data).0, decode)
      ensures rest == SplitLines(buffer + data).1 && NoNewline(rest)
    {
      var buf := buffer + data;
      ghost var all := SplitLines(buf);
      ghost var st0 := state;
      ghost var done: seq<seq<byte>> := [];
      while NEWLINE in buf
        invariant done + SplitLines(buf).0 == all.0 && SplitLines(buf).1 == all.1
        invariant State() == old(State()) && running == old(running)
        invariant state == Shown(st0, done, decode)
        decreases |buf|
      {
        var (line, tail) := SplitOnce(buf);
        var msg := decode(line);
        if msg.Some? && msg.value.Obj? && Lookup(msg.value.fields, "type") == Str("state") {
          state := Lookup(msg.value.fields, "state");
        }
        Server.FrameStep(done, buf, all);
        assert (done + [line])[..|done|] == done;
        done := done + [line];
        buf := tail;
      }
      assert done == all.0;
      SplitLinesSound(buffer + data);
      rest := buf;
    }

    /** `network_reader`: reads `chunks` until an empty one (the server
        closed) while the client runs, then stops running. */
    method NetworkReader(chunks: seq<seq<byte>>, decode: seq<byte> -> Option<Value>)
      modifies this
      ensures State() == old(State()) && !running
      ensures state == if old(running) && old(online)
                       then Shown(old(state), SplitLines(Server.Concat(chunks[..Server.Open(chunks)])).0, decode)
                       else old(state)
    {
      var buffer: seq<byte> := [];
      ghost var st0 := state;
      ghost var got: seq<byte> := [];
      var i := 0;
      assert SplitLines(got) == ([], []);
      while i < |chunks| && running && online
        invariant 0 <= i <= Server.Open(chunks)
        invariant State() == old(State()) && running == old(running)
        invariant got == Server.Concat(chunks[..i])
        invariant !(running && online) ==> got == []
        invariant buffer == SplitLines(got).1
        invariant state == Shown(st0, SplitLines(got).0, decode)
      {
        var data := chunks[i];
        if data == [] {
          break;
        }
        ghost var before := SplitLines(got);
        ghost var more := SplitLines(before.1 + data);
        buffer := ReadChunk(buffer, data, decode);
        assert state == Shown(Shown(st0, before.0, decode), more.0, decode);
        SplitLinesAppend(got, data);
        ShownAppend(st0, before.0, more.0, decode);
        assert SplitLines(got + data) == (before.0 + more.0, more.1);
        Server.ConcatSnoc(chunks, i);
        got := got + data;
        i := i + 1;
      }
      if old(running) && old(online) {
        assert i == Server.Open(chunks);
        assert got == Server.Concat(chunks[..Server.Open(chunks)]);
        assert state == Shown(st0, SplitLines(Server.Concat(chunks[..Server.Open(chunks)])).0, decode);
      } else {
        assert SplitLines(got) == ([], []);
      }
      running := false;
    }
  }
}
