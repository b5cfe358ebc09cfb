# Pong-chess: a verified model of the engine, the server and the client

Pong-chess is pong played across a chess board. Two paddles sit between
the pawn rows. A ball bounces around the board and damages the pieces it
touches. A piece whose hit points reach zero is removed. Destroying a king
ends the game, and the opposite side wins. Player 1 starts each game by
choosing the ball's launch direction.

The code runs as three parts:
- an authoritative engine (`Game`);
- a TCP server that relays newline-framed JSON messages between the engine
  and two clients;
- a client that turns key presses into commands and shows the latest state
  it received.

This project models those three parts in Dafny:

| module | file | models |
|---|---|---|
| `Values` | values.dfy | decoded JSON values, and the Python coercions `float()`, `int()` and `str()` the code applies to them |
| `Framing` | framing.dfy | splitting a receive buffer into complete lines and a remainder |
| `Board` | board.dfy | the board geometry for 2, 4, 6 or 8 columns, the generated piece layout, loading piece records, and the piece views in the snapshot |
| `Entities` | entities.dfy | the `Paddle` and `Ball` objects of the engine |
| `Physics` | physics.dfy | one tick of `update`, as pure functions: trajectory acceptance, walls, piece contacts, the bounce, damage with a cooldown, removal and the king rule |
| `Engine` | game.dfy | the `Game` object, a class whose methods are proved against the `Physics` and `Board` definitions |
| `Server` | server.dfy | message dispatch into the shared `commands`/`controls` slots, the receive loop, client acceptance, and one frame of the main loop |
| `Client` | client.dfy | the client: steering, trajectory choice, pause, dimension and new-game requests, the per-frame flag refresh, and the network reader |
| `ClientEntities` | client_entities.dfy | the client's ball and paddle copies, updated from state dicts |

Every method that changes state is specified by a pure function of its
inputs and the old state. The properties are then proved about those
functions.

Randomness, the clock, trigonometry, `json.loads`, and each socket's
send and accept results are *parameters*:
- `dir`: the random launch direction;
- `now`: the time read once per step;
- `cosSin`: `math.cos`/`math.sin` of an angle in degrees;
- `decode`: the JSON decoder;
- `sendOk` and `accept`: the socket oracles;
- `rawDims`: the `EXTRA_DIMENSIONS` environment variable;
- `template`: the template file's contents, or `None` when it cannot be
  read;
- `engineWaiting`: the local engine's waiting flag, as the client reads it.

The model follows the code as written, including three behaviours a reader
might not expect:
- While the engine waits, a trajectory it refuses is not ignored. It clears
  the pending choice, and the full physics tick then runs with the ball
  still waiting (game.py:270-296 fall through to line 310).
- A game generated for a reduced board from the template uses the built-in
  hit points, not the template's (game.py:139 overwrites the map set at
  line 250). The `Game` class does this too; the corrected map appears only in
  the lemma of "## Findings".
- Network players 1 and 2 steer with the same keys (client/client.py:741-756),
  although the comments there assign arrows to player 2.

## Model

| member | source | states |
|---|---|---|
| Values.AsFloat | server.py:71-79 | `float(v)`: a number is itself, a bool is 0 or 1, a string is accepted exactly when it parses as a float literal (see `Values.FloatOfIntString` and `Values.FloatOfDecimal` for which strings do), and null, list and object are refused |
| Values.FloatOfIntString | server.py:71-79 | `float(str(n)) == n`: the decimal text of every integer, negatives included, parses as that number |
| Values.FloatOfDecimal | server.py:71-79 | `float()` of an optional sign, digits, a point and fraction digits (one of the two digit strings may be empty) is `whole + frac / 10^len(frac)`, negated after a minus sign |
| Values.AsInt | server.py:55-57 | `int(v)`: a number truncates toward zero, a bool is 0 or 1, a string must parse as an integer literal, and anything else is refused |
| Values.Truncate | server.py:56 | `int()` of a float rounds toward zero, on both sides of zero |
| Values.IntStringRoundTrip | server.py:194-196 | `str(n)` read back by `int()` gives `n`, for every integer including negatives |
| Values.LabelsAreNotNumbers | server.py:78-85 | `left`, `center` and `right` fail `float()`, so they reach the label branch |
| Framing.SplitOnce | server.py:37 | `buffer.split(b'\n', 1)` gives the newline-free text before the first newline, and the rest; the two rejoin to the buffer |
| Framing.SplitLinesSound | server.py:36-37 | draining the buffer yields newline-free lines and a newline-free remainder; lines, newlines and remainder rebuild the buffer exactly |
| Framing.SplitLinesUnique | server.py:36-37 | that decomposition is the only one: framing any lines plus a newline-free tail recovers exactly those lines and that tail |
| Framing.SplitLinesAppend | server.py:31-37 | framing `a + b` gives the lines of `a`, then the lines of `a`'s leftover extended by `b`; so chunk boundaries do not matter |
| Board.ActiveCols | game.py:31-43 | the column count is always 2, 4, 6 or 8; it is the setting when that parses as one of those, and 8 otherwise |
| Board.MakeBoard | game.py:48-71 | the board has `cols` by 8 cells of 70 pixels, centred in the 800 by 600 window |
| Board.BoardFitsWindow | game.py:48-71 | for every allowed column count the board lies inside the window, with a 20-pixel margin above and below |
| Board.EntitySizes | game.py:77-84 | paddle width, paddle height and ball radius are positive (the two-column sizes included) |
| Board.PaddleFitsBoard | game.py:77-84 | a paddle is never wider than the board, and the ball is smaller than a cell |
| Board.PaddlesBetweenPawnRows | game.py:85-93 | the top paddle lies below row 1, the bottom one above row 6, and the two do not overlap |
| Board.Majors | game.py:137-143 | the back rank is the central slice of `R N B Q K B N R` with as many pieces as columns |
| Board.InitialLayout | game.py:146-158 | every generated piece is on an active column; black pieces take rows 0-1, white rows 6-7; pawns sit exactly on rows 1 and 6, the back rank on rows 0 and 7; each piece starts at full `hp_map.get(type, 1)` hit points, never hit |
| Board.LayoutLength | game.py:146-158 | four pieces per active column |
| Board.OneKingEach | game.py:137-158 | every generated layout holds exactly one king of each colour, on every allowed board |
| Board.FillHp | game.py:239-247 | a template record gets `max_hp` from the HP map when it lacks one, then `hp` from `max_hp` when it lacks that; nothing else changes |
| Board.Load | game.py:209-221 | a loaded record keeps the hit points it has and defaults the missing ones from the HP map; a missing `last_hit` becomes 0 |
| Board.RecordRoundTrip | game.py:187-221 | writing a piece and loading it back gives the same piece, and loading a filled-in record is loading the record |
| Board.ViewOf | game.py:513-528 | the snapshot entry of a piece carries its type, colour, cell and hit points unchanged, at the cell's size |
| Board.ViewInsideCell | game.py:516-517 | the reported centre lies strictly inside the piece's cell, and inside the board for a piece on the board; distinct cells have distinct centres |
| Board.ViewInCell | game.py:516-517 | the reported centre lies strictly inside the piece's cell on both axes |
| Board.ViewOnBoard | game.py:516-517 | a piece on the board is reported strictly inside the board |
| Board.ViewsDistinct | game.py:516-517 | pieces on different cells are reported at different centres |
| Entities.CommandVelocity | entities/paddle.py:16-23 | `left` moves at minus the speed, `right` at the speed, and every other command stops the paddle |
| Entities.ClampX | entities/paddle.py:25-33 | the paddle centre is kept within half a width of both bounds, and is unchanged when already inside |
| Entities.CommandLastWins | entities/paddle.py:16-23 | only the last command counts, and repeating a command changes nothing |
| Entities.MovedStaysOnBoard | entities/paddle.py:25-33 | after an update the whole paddle lies between the bounds; only `x` changes; a paddle at rest inside the bounds stays put |
| Entities.MovedAtRestIdempotent | entities/paddle.py:25-33 | for a paddle at rest, updating twice is the same as updating once |
| Entities.PaddleDict | entities/paddle.py:39-48 | the paddle dict has exactly the keys `x y width height color speed command`, each holding the paddle's current value of that field |
| Entities.PaddleDictFaithful | entities/paddle.py:39-48 | two paddles report the same dict exactly when they agree on every field but the velocity |
| Entities.Paddle.constructor | entities/paddle.py:4-14 | a new paddle stands still with command `stop` |
| Entities.Paddle.ApplyCommand | entities/paddle.py:16-23 | the paddle's new state is the commanded state |
| Entities.Paddle.Update | entities/paddle.py:25-33 | the paddle's new state is the moved and clamped state |
| Entities.Paddle.GetBounds | entities/paddle.py:35-37 | the bounds are a rectangle of the paddle's size, centred on it |
| Entities.AdvanceInverse | entities/ball.py:34-36 | advancing by `dt` and then by `-dt` restores the ball; advancing twice is advancing by the sum |
| Entities.Respawned | entities/ball.py:21-32 | a reset ball is at the given point with the given (or kept) speed, its special flags are cleared, and its size and colour are kept |
| Entities.BallDict | entities/ball.py:38-49 | the ball dict has exactly the nine keys, each holding the ball's current value of that field (position, velocity, radius, colour, speed and both special flags) |
| Entities.BallDictFaithful | entities/ball.py:38-49 | two balls report the same dict exactly when they are equal |
| Entities.Ball.constructor | entities/ball.py:6-19 | a new ball moves at `speed` along the random direction |
| Entities.Ball.Update | entities/ball.py:34-36 | the ball's new state is the advanced state |
| Entities.Ball.Reset | entities/ball.py:21-32 | the ball's new state is the respawned state |
| Physics.AcceptTrajectory | game.py:273-288 | what the waiting engine accepts: a number or bool as an angle, a string as an angle when it parses and otherwise only as one of the three labels, and nothing else; every accepted value is well formed |
| Physics.TrajectoryRoundTrip | game.py:273-288 | a trajectory the server stored and handed on is accepted by the engine as exactly that trajectory |
| Physics.LaunchAngle | game.py:160-181 | an angle is used as given; the labels launch between 225 and 315 degrees, `center` straight down at 270 |
| Physics.LabelsSymmetric | game.py:174-179 | `left` and `right` lie 45 degrees on either side of `center` |
| Physics.WallsReflect | game.py:324-347 | after the wall step the ball is a radius inside every edge; a crossed edge puts it exactly a radius inside and negates that component; an untouched axis is unchanged; the flag is set exactly when an edge was crossed |
| Physics.TouchesMeaning | game.py:364-368 | a ball centred in a cell touches it; a touching ball is within a radius of the cell on both axes |
| Physics.ContactsComplete | game.py:352-372 | a piece is among the contacts exactly when the ball's circle touches its cell |
| Physics.ContactsAscending | game.py:352-372 | contacts are listed in board order, each piece at most once |
| Physics.ContactsCells | game.py:355-362 | each contact records the cell of the piece it names |
| Physics.Leftmost | game.py:387-388 | the least left edge of the hit cells, and attained by one of them |
| Physics.Rightmost | game.py:390-391 | the greatest right edge of the hit cells, and attained by one of them |
| Physics.Topmost | game.py:395-396 | the least top edge of the hit cells, and attained by one of them |
| Physics.Bottommost | game.py:398-399 | the greatest bottom edge of the hit cells, and attained by one of them |
| Physics.BounceOneAxis | game.py:374-402 | exactly one velocity component flips, the one of the chosen axis; on that axis the ball ends a radius clear of every hit cell, on one side of all of them; the other axis is kept |
| Physics.Damaged | game.py:405-414 | outside the cooldown a hit costs one hit point, never going below 0, and stamps the hit time; inside it the piece is unchanged |
| Physics.DamageAllAt | game.py:405-414 | exactly the touched pieces are damaged, each once, and every other piece is unchanged |
| Physics.RemoveFirst | game.py:419-422 | `list.remove` takes out one element when present, and leaves the list alone otherwise |
| Physics.RemoveFirstMultiset | game.py:419-422 | it removes exactly one occurrence of the element |
| Physics.Winner | game.py:427-433 | losing the white king makes player 0 the winner, losing the black king player 1 |
| Physics.RemovalExact | game.py:417-434 | removal takes out exactly the touched pieces left with no hit points, as a multiset |
| Physics.RemovalKing | game.py:427-433 | the game-over record after removal is the one the king rule gives for the destroyed pieces |
| Physics.KingLossMeaning | game.py:427-433 | with no king destroyed the record is kept; otherwise it names a destroyed king's colour and its winner; once set it is never cleared |
| Physics.WaitingMovesOnlyPaddles | game.py:297-308 | while waiting with no trajectory only the paddles move, and no collision is reported |
| Physics.TrajectoryGate | game.py:270-296 | while waiting, a trajectory ends the wait exactly when it is accepted, and the pending choice becomes the accepted value or nothing |
| Physics.PlayMonotone | game.py:310-434 | a tick never adds pieces and never clears the game-over record; a new record names a king that was on the board |
| Physics.HitsMonotone | game.py:404-434 | damage and removal never add pieces and never clear the game-over record; a new record names a king that was among the pieces |
| Engine.InitHp | game.py:138-139 | the HP map that was meant: the map already provided, or the built-in one when there is none |
| Engine.TemplateHpIgnoredAsWritten | game.py:250-252 | as written, a template giving pawns 3 hit points still yields 2-hit-point pawns on a 4-column board |
| Engine.TemplateHpUsed | game.py:236-253 | corrected, every piece generated for a reduced board takes its hit points from the template's map |
| Engine.FillRecords | game.py:238-247 | each template record is filled in by `FillHp`, in order |
| Engine.NormalisePieces | game.py:208-221 | each stored record is loaded by `Load`, in order |
| Engine.Records | game.py:187-197 | the file written holds one record per piece, in order |
| Engine.ReloadFilled | game.py:238-264 | on the full board, loading the filled-in records of the file written gives the template's pieces, each loaded from its own record |
| Engine.ReloadWritten | game.py:249-264 | on a reduced board, loading the records written for the generated layout gives exactly that layout back |
| Engine.NewPaddles | game.py:85-93 | two distinct new paddles, centred, the cyan one above the yellow one, both between the pawn rows and at rest |
| Engine.Game.constructor | game.py:26-129 | the board for the setting; paddles and ball positioned for it; with a template, its HP map and scores, its loaded pieces on the full board and the built-in-HP layout on a reduced one; without a template, the generated layout; waiting for the first trajectory |
| Engine.Game.CreateOrGenerate | game.py:107-122 | with a template, the game it creates: its HP map, scores and loaded pieces; without one, the built-in HP map and the generated layout appended; the paddles, ball and flags are untouched |
| Engine.Game.Configure | game.py:548-596 | reconfiguration gives the board, paddles and ball for the new setting and keeps the game data |
| Engine.Game.InitPieces | game.py:135-158 | the HP map becomes the built-in one, and the layout generated with it is appended to the pieces |
| Engine.Game.AppendColumn | game.py:146-158 | one column appends its four pieces and changes nothing else |
| Engine.Game.CreateFromTemplate | game.py:223-264 | the full board takes the template's pieces, loaded; a reduced board gets the layout generated at the built-in hit points (`ReducedPiecesAsWritten`); the HP map and scores then come from the template |
| Engine.Game.GenerateReduced | game.py:249-253 | on a reduced board the pieces become the layout generated at the built-in HP map, and the records returned are those pieces written out; nothing else of the game changes |
| Engine.Game.ResetGame | game.py:543-611 | the board for the current setting and the state `Engine.Game.ResetTo` names: with a template, new paddles and a new game from the template, its pieces as `CreateFromTemplate` gives them, with the ball at rest in the centre, waiting for a trajectory, with no game over; without a template, only new paddles and ball, the old game data kept |
| Engine.Game.StartFromTemplate | game.py:596-607 | the game is created from the template, the ball is back at the centre at rest with its special flags cleared, and the engine waits for a new trajectory with no game-over record |
| Engine.Game.ApplyCommands | game.py:310-313 | both paddles take their player's command |
| Engine.Game.MovePaddles | game.py:315-319 | both paddles advance, clamped to the board |
| Engine.Game.ApplyTrajectory | game.py:160-185 | the ball's velocity becomes the launch velocity of the pending trajectory |
| Engine.Game.ReflectWalls | game.py:324-347 | the ball and the flag are those of the wall step |
| Engine.Game.ReflectSides | game.py:330-338 | the ball and the flag are those of the left/right wall step |
| Engine.Game.ReflectEnds | game.py:339-347 | the ball and the flag are those of the top/bottom wall step |
| Engine.Game.FindContacts | game.py:352-372 | the contacts found are the specified contacts, in board order |
| Engine.Game.BounceOff | game.py:374-402 | the ball is bounced by the specified response |
| Engine.Game.ApplyDamage | game.py:404-414 | the pieces are the damaged pieces, and nothing else changes |
| Engine.Game.RemoveDestroyed | game.py:416-434 | pieces and game-over record are those of the removal step |
| Engine.Game.PlayTick | game.py:310-434 | one tick in play is `Physics.Play` on the engine's state |
| Engine.Game.Update | game.py:267-434 | `update(dt, player_commands)` is `Physics.Step` on the engine's state |
| Engine.Game.GetState | game.py:510-541 | the snapshot carries the board, ball and paddle dicts, one view per piece at its cell's centre, the scores, the game-over record, the waiting flag, the time and the window size (`Engine.Game.Snapshots`) |
| Server.PauseFlag | server.py:94-98 | a boolean sets the pause flag; anything else toggles it, an absent flag counting as false |
| Server.Dispatch | server.py:38-101 | a line that is not a JSON object changes nothing; one message changes at most one kind of slot; a changed command is a movement in the sender's slot; only player 1 can set a trajectory; stored trajectories stay well formed |
| Server.CommandSlot | server.py:43-46 | a movement command overwrites the sender's slot and the last one wins; anything else is ignored |
| Server.TrajectorySlot | server.py:61-90 | a trajectory from a player other than 1 is ignored; from player 1 an accepted value is stored as parsed and a refused one is dropped |
| Server.PauseSlot | server.py:91-98 | a boolean sets the pause flag; anything else toggles it, and two toggles restore it |
| Server.DimsAndNewGameSlots | server.py:47-60 | a dimension request stores `int(value)` or is dropped when that fails; a new-game request raises its flag |
| Server.DispatchLinesAppend | server.py:36-101 | handling two batches of lines is handling their concatenation |
| Server.SkippedLine | server.py:38-41 | a line that does not decode to an object has no effect wherever it appears |
| Server.DispatchLinesOk | server.py:61-90 | no sequence of messages can leave a malformed trajectory in the slots |
| Server.Open | server.py:31-34 | the loop stops at the first empty read |
| Server.ReceiveInParts | server.py:31-37 | what is handled does not depend on where the chunk boundaries fall |
| Server.PlayerCommands | server.py:180 | the engine's players 0 and 1 get the commands of clients 1 and 2, `stop` when missing |
| Server.AfterTick | server.py:182-210 | after a tick the trajectory is consumed, the dimension request and the new-game flag are cleared, and the pause flag stays |
| Server.TrajectoryDelivered | server.py:182-188 | a trajectory chosen by player 1 reaches the engine at the next tick; if that tick is not paused, it ends the wait with it as the pending choice; it is not delivered twice |
| Server.TrajectoryLostWhenPaused | server.py:182-189 | a paused tick still consumes the trajectory slot and keeps the pause flag, so a choice stored while paused is lost (the paused engine itself is unchanged, by `Server.Server.RunEngine`) |
| Server.DimsSetting | server.py:192-198 | writing `str(v)` to the setting and resetting yields `v` columns when `v` is allowed, and 8 otherwise |
| Server.Kept | server.py:216-233 | the connections kept are exactly those whose send succeeded |
| Server.RemoveFailed | server.py:219-233 | removing the failed connections one `remove` at a time leaves exactly the kept ones, in order |
| Server.AcceptTwoClients | server.py:112-136 | the server runs only when both accepts succeed; the k-th client is sent `assign` with player number k+1 |
| Server.Server.constructor | server.py:155-161 | the slots start with both commands `stop` and no controls; the engine is built for the setting |
| Server.Server.Handle | server.py:36-101 | the slots become the dispatched slots, and nothing else changes |
| Server.Server.ReceiveChunk | server.py:35-101 | every complete line of buffer plus data is dispatched in order, and the incomplete rest is returned |
| Server.Server.RecvLoop | server.py:24-109 | the receive loop handles every line of the bytes before the first empty read, then sets the stop flag |
| Server.Server.TakeTrajectory | server.py:182-184 | the pending trajectory is handed on once and its slot cleared |
| Server.Server.Prune | server.py:216-233 | the connections become the kept ones, and nothing else changes |
| Server.Server.ApplyControls | server.py:192-210 | a dimension request writes `str(v)` to the setting; both requests are cleared; after either, the engine is in the state of its last reset, `Engine.Game.ResetTo`: with a template the restarted game (new paddles, ball at rest in the centre, the template's HP map, scores and pieces, no game over, waiting for a trajectory), without one the new paddles and ball with the match data (scores, pieces, HP map, game over, waiting flag, pending trajectory) of the game before that reset; with neither, the engine is untouched |
| Server.Server.ApplyDims | server.py:192-202 | a dimension request writes `str(v)` to the setting and is cleared, and the engine is then in the reset state `Engine.Game.ResetTo`: with a template the restarted game (new paddles, ball at rest in the centre, the template's HP map, scores and pieces, no game over, waiting for a trajectory), without a template the new paddles and ball, the match data (scores, pieces, HP map, game over, waiting flag, pending trajectory) kept; without a request nothing changes |
| Server.Server.ApplyNewGame | server.py:203-209 | a new-game request is cleared, and the engine is then in the reset state `Engine.Game.ResetTo`: with a template the restarted game (new paddles, ball at rest in the centre, the template's HP map, scores and pieces, no game over, waiting for a trajectory), without a template the new paddles and ball for the current setting, the match data (scores, pieces, HP map, game over, waiting flag, pending trajectory) kept; without a request nothing changes |
| Server.Server.Advance | server.py:186-189 | a paused frame leaves the game as it was; otherwise the game takes one `Physics.Step` of 1/30 s, the scores and HP map unchanged (`Server.EngineData`) |
| Server.Server.RunEngine | server.py:172-210 | the engine part of a frame: controls consumed as `AfterTick` says; after a dimension or new-game request the engine is in the state `Engine.Game.ResetTo` gives for the last reset (so a new game clears the game over and waits for a trajectory again when a template is read); a reset without a template keeps the match data the engine step left (`Server.EngineData`); otherwise one `Step` unless paused |
| Server.Server.Publish | server.py:211-247 | the broadcast state is the whole `get_state` snapshot (`Engine.Game.Snapshots`: board, ball and paddle dicts, every piece's view, scores, game over, waiting flag, time, window size), with the pause flag; failed connections dropped; the loop stops on game over or when no client is left |
| Server.Server.StopIfDone | server.py:234-247 | the stop event is set after a game over or once no connection is left, and nothing else changes |
| Server.Server.Tick | server.py:172-247 | one whole frame of the main loop: the engine part as `RunEngine` states it, including the reset state and the match data a reset without a template keeps, then the broadcast of the whole snapshot as `Publish` states it |
| Client.Sent | client/client.py:34-39 | a connected client writes the message; an unconnected one writes nothing; nothing else changes |
| Client.HeldCommand | client/client.py:738-760 | over the network, `a` or left arrow gives `left`, else `d` or right arrow gives `right`, else `stop` |
| Client.PairCommand | client/client.py:761-776 | a local player is driven by its own two keys, left first |
| Client.SendOnlyOnChange | client/client.py:757-760 | a command is sent exactly when it differs from the current one; steering again with the same keys sends nothing more |
| Client.LocalSteering | client/client.py:761-776 | local steering sets both players from their own keys and sends nothing |
| Client.Mod360 | client/client.py:717 | Python's `% 360` on a float always lies in `[0, 360)` |
| Client.Rotate | client/client.py:716-721 | a turn of the arrow keeps the angle in `[0, 360)` |
| Client.RotateInverse | client/client.py:716-721 | a turn left undoes a turn right and back; turning right adds 5 degrees away from the wrap |
| Client.ClampAngle | client/client.py:930-935 | a numeric choice is clamped to `[0, 360]` and kept when inside |
| Client.TrajectoryChoice | client/client.py:952-960 | the network message carries the clamped angle when `float` accepts the choice, and the raw value otherwise |
| Client.ChoiceAccepted | client/client.py:952-960 | every numeric choice sent is one the server accepts, as the clamped angle; a label is accepted as that label |
| Client.ChoiceStored | client/client.py:952-960 | from player 1 the server stores exactly the angle the client clamped |
| Client.Toggled | client/client.py:970-991 | pausing flips the client's flag in both modes; a network client also writes one `pause` control when connected, a local one writes nothing; nothing else changes |
| Client.ToggleTwice | client/client.py:970-991 | pausing twice restores the flag (the whole client, locally); a connected network client has sent two `pause` controls, and the server's two toggles restore its flag |
| Client.CheckedDims | client/client.py:869-874 | a request is made exactly when `int(value)` succeeds and gives 2, 4, 6 or 8 |
| Client.DimsHonoured | client/client.py:886-891 | every dimension request the client sends is stored by the server, and the reset it triggers has exactly that many columns |
| Client.DimsRefused | client/client.py:869-877 | a refused request changes nothing; a local one records the setting |
| Client.ControlsReachServer | client/client.py:855-862 | the client's `new_game` and `pause` controls raise the server's new-game flag and toggle its pause flag |
| Client.NewGameEffect | client/client.py:825-862 | a local new game waits for a fresh trajectory and sends nothing; a network one sends a single request |
| Client.SyncFollowsServer | client/client.py:997-1013 | after the frame refresh the client's waiting and pause flags are those the server broadcast, and a second refresh changes nothing |
| Client.ArrowWhileChoosing | client/client.py:714-721 | while choosing, the arrow keys only turn the arrow: nothing is recorded or sent |
| Client.PressRelease | client/client.py:699-795 | pressing and releasing a key over the network restores the held keys, and the command becomes the one the remaining held keys give |
| Client.LastStateWins | client/client.py:679-690 | the state shown is that of the last `state` message; later lines of other kinds do not change it |
| Client.ShownAppend | client/client.py:679-690 | reading two batches is reading their concatenation |
| Client.Client.constructor | client/client.py:566-615 | a new client has no player, holds nothing, commands `stop`, points the arrow down and shows the placeholder state |
| Client.Client.Assign | client/client.py:648-658 | after the `assign` message the client is connected with its player number |
| Client.Client.Send | client/client.py:34-39 | the state becomes the sent state |
| Client.Client.SendCommandTo | client/client.py:811-823 | only a network client sends the command |
| Client.Client.Steer | client/client.py:737-776 | the state becomes the steered state |
| Client.Client.TogglePause | client/client.py:970-991 | the state becomes the toggled state |
| Client.ChoiceEffect | client/client.py:901-968 | a choice made while no trajectory is awaited, or by a disconnected network client, changes nothing; otherwise the client stops waiting, and a local client stores the clamped choice while a network client writes exactly one `trajectory` control holding it |
| Client.Client.ChooseTrajectory | client/client.py:901-968 | the client's new state is `Chosen` of the old one, whose effect `Client.ChoiceEffect` states |
| Client.Client.StoreChoice | client/client.py:927-947 | locally, the new state is `Chosen` of the old one with the engine waiting: the clamped number or the label is stored and the arrow hidden |
| Client.Client.SendChoice | client/client.py:948-968 | over the network, the new state is `Chosen` of the old one: a connected client sends one `trajectory` control and stops waiting, a disconnected one changes nothing |
| Client.Client.SendSetDimensions | client/client.py:864-893 | the state becomes the requested state |
| Client.Client.RequestNewGame | client/client.py:825-862 | the state becomes the new-game state |
| Client.Client.SyncFlags | client/client.py:997-1024 | the flags are refreshed from the server's state or the local engine |
| Client.Client.OnKeyPress | client/client.py:699-776 | the state becomes the pressed state |
| Client.Client.OnKeyRelease | client/client.py:778-809 | the state becomes the released state |
| Client.Client.ReadChunk | client/client.py:677-690 | every complete line is handled in order and a `state` message replaces the shown state; the rest is returned |
| Client.Client.NetworkReader | client/client.py:671-697 | the reader shows the last state received before the server closed, then stops running |
| ClientEntities.Get | client/entities/ball.py:14-20 | `d.get(key, current)` |
| ClientEntities.BallMergeLaws | client/entities/ball.py:14-20 | an empty dict changes nothing, and merging the same dict twice is merging it once |
| ClientEntities.PaddleMergeLaws | client/entities/paddle.py:10-15 | the same laws for the paddle |
| ClientEntities.BallMergeCompose | client/entities/ball.py:14-20 | merging two dicts in turn is merging their union, the later one winning |
| ClientEntities.BallSeesServer | client/entities/ball.py:14-20 | after merging the server's ball dict the client holds the server ball's position, velocity, radius and colour |
| ClientEntities.PaddleSeesServer | client/entities/paddle.py:10-15 | after merging the server's paddle dict the client holds the server paddle's position, size and colour |
| ClientEntities.ClientBall.constructor | client/entities/ball.py:6-12 | a new client ball is at rest |
| ClientEntities.ClientBall.Default | client/entities/ball.py:6-12 | with the default arguments, a white ball of radius 8 at rest at (400, 300) |
| ClientEntities.ClientBall.FromDict | client/entities/ball.py:14-20 | the fields become the merged fields |
| ClientEntities.ClientPaddle.constructor | client/entities/paddle.py:3-8 | a new client paddle has the given fields |
| ClientEntities.ClientPaddle.Default | client/entities/paddle.py:3-8 | with the default arguments, a 120 by 12 white paddle at (400, 300) |
| ClientEntities.ClientPaddle.FromDict | client/entities/paddle.py:10-15 | the fields become the merged fields |

## Left out

- Trigonometry, `math.hypot`, square roots and `random` are parameters (`cosSin`, `dir`). Only the angle fed to them and the defaults around them are modelled.
- Paddle collisions and the 800 px/s speed cap (game.py:436-506) are not modelled. They need `hypot` and speed renormalisation, so `Physics.Play` ends after piece removal.
- The power mechanic (special flags, power configuration), the piece editor panels, the renderer and the Tk user interface are not modelled.
- The Java web-service project is not part of this model.
- File I/O is not modelled: the template file, the per-game time-stamped file, `_write_db` and the `db.json` fallback of `Game()` when the template is missing. The template contents are a parameter; writing and reading back is the record round trip.
- Template piece records are modelled as well typed: each `type` is one of the six codes P, N, B, R, Q, K, each `color` is white or black, and `hp`/`max_hp` are integers. The source accepts any JSON there: an unknown type takes `hp_map.get(type, 1)` (game.py:211-212) and is never a king (game.py:427), a non-numeric `hp` is replaced by `hp_map.get(type, 1) - 1` on the first hit (game.py:408-411), and a float `hp` is compared as a float. The model does not capture these records.
- Engine.Game.ResetGame: without a readable template, the source raises inside `reset_game`, and the exception is logged. The model then keeps the new paddles and ball and the old game data. It does not model an exception thrown part-way through.
- Sockets, threads and the shared-dictionary concurrency are not modelled. Each receive loop is modelled alone over the sequence of chunks it would read. The stop event is a field, and sends are the `sendOk` oracle. The client's `outbox` records the messages it writes.
- Frame pacing (`time.sleep`) and the outer `while` loop are not modelled; `Server.Server.Tick` is one frame. The clock is read once per frame (`now`), although the source reads it separately for the cooldown and the snapshot.
- Floating point is modelled as exact reals. The string parsers accept ASCII whitespace around the number (space, tab, line feed, carriage return, vertical tab, form feed and the separators 0x1C-0x1F), an optional sign, ASCII digits, and for `float()` a point and an exponent. They do not recognise `inf`, `nan`, underscores between digits (for both `float()` and `int()`), non-ASCII whitespace or non-ASCII digits.
- `keysym.lower()` case folding is not modelled; keys arrive already lower-cased.
- Client.Client.SendSetDimensions: in local mode the model records the new setting (`localDims`) but does not model the local engine's reset or the state it then shows.
- Client.Client.RequestNewGame: in local mode it does not model the local engine's reset or the state it then shows.
- Client.Client.SyncFlags: a received state that is not a JSON object raises in the source's render frame; the model leaves the flags unchanged.
- Bytes that arrive after `assign` in the same read are dropped by `connect_to_server` (client/client.py:648-660). That buffer is not passed to the reader, and the model does not carry it either.
- A network client's `local_commands` is `None`; the model uses an empty map, which no network handler reads.

## Findings

| source | as written | input that shows it | evidently intended | confidence | as-written member | corrected member |
|---|---|---|---|---|---|---|
| game.py:139 | `_init_pieces` overwrites `hp_map` with the built-in map, so the template's map set at game.py:250 is ignored on reduced boards | a template whose `hp_map` gives pawns 3 hit points, on a 4-column board: the generated pawns get 2 | the generated pieces take their hit points from the template's map when it has one (the code comment says the built-in map is used only if none is provided) | not executed | Engine.TemplateHpIgnoredAsWritten | Engine.TemplateHpUsed |
