# A verified model of a 2D platformer's game logic

This project models the discrete logic inside a Bevy platformer and proves properties of it in Dafny.
The platformer uses LDtk levels, Rapier physics, leafwing input maps and kira audio.
The engine glue around that logic is not modelled.

One Dafny module covers each source file:

- `Tilemap`: merging a layer's occupied tiles into wall rectangles (`merge_grids`), and the collider each rectangle gets.
- `CheckPoint`: the checkpoint upsert rule, the initial checkpoint of a spawned player, the player/sensor pairing loop, and the sensor colliders.
- `Player`: `Direction` and its float conversions, `Health` built from a level entity, `JumpStatus`, the `Player` component with its defaults, the movement settings, and `DashInput` with its one-shot timer.
- `PlayerSystems`: standing-normal selection, coyote time, the jump classifier and its flag effects, the dash double-tap detector, facing, and the run target.
- `Npc`: building a patrol from a level entity, stepping it back and forth along its waypoints, and despawning dead enemies.
- `Control`: the key-rebinding window, conflict detection, replace and cancel, input-source priority, reset, and saving the input map to the configuration.
- `Save`: listing save files in path order, padding the slot list, naming a new save, and the run condition of the save system.
- `Audio`: the per-channel request flags and the systems that turn them into channel commands.
- `Wrappers` and `Vectors`: Option/Result, and 2D/3D real vectors.

## How the model works

**Value-style code and state-changing code**
- Code that only computes values becomes functions over datatypes.
- Code that updates a component in place becomes a class whose methods carry `modifies` clauses:
  - `PlayerBody` holds the player component, the velocity and the gravity scale;
  - `Patrol`, `ControlMenu`, `SaveEvents` and `ChannelState` are classes too.
- Each such method is specified by a function of the old state.

**Loops**
- These loops become `while`/`for` methods with invariants: the two passes of `merge_grids`, the checkpoint pairing, the patrol's point list, despawning, and padding the save slots.
- The `dash` system's query loop is `DashSystem`: the players share one `DashInput` window, each tap is decided against the window as the players before it left it, and the window ticks once after the loop.

**Engine types**
- Bevy's deferred `Commands` are modelled as explicit outputs:
  - the checkpoints inserted for players that have none become a pending map, applied after the loop;
  - the next-state requests of the menu become `nextMenu`/`nextBinding` fields.
- `HashMap` iteration order is arbitrary (Rust gives no order). The model picks the order by a choice (`:|`), so every proof holds for any order.
- Time is modelled as integers:
  - the `Instant`s of coyote time are integer nanoseconds, and the window is `coyote_time_ms * 1_000_000`;
  - Bevy's one-shot `Timer` is elapsed/duration in whole milliseconds, clamped at its duration.
- Rapier contacts are an input list of contact pairs and their normals.
- The "reverse now" signal of `patrol` is a boolean input. In the source it is the sign of a float dot product.
- Audio playback is modelled by the commands a system issues rather than by playing sound.
- `read_dir` and the file deletions are modelled as a directory listing passed in.

**The input map**
- The leafwing input map is a sequence with one entry per action, in action order. Each entry is that action's list of inputs.
- Actions are numbered by their enum order, which is also the order in which the conflict search iterates.
- The action enum and its default map (`ControlAction::get_input_map`) are not part of this model. The defaults are a parameter.
- `insert_at` and `remove` are given plain definitions:
  - `insert_at` binds the input in the given slot, or appends it when the slot does not exist, unless the input is already bound to the action;
  - `remove` drops the input from that action.

**Deliberate choices**
- `merge_grids`: a run that reaches the last column `width - 1` is closed by looking at column `width`. The model keeps the source's scan to `width` inclusive.
  - If column `width` itself is occupied, that row's last run never closes and is dropped.
  - The coverage property therefore has the hypothesis that cell `(width, y)` is not occupied. LDtk layers never contain such a cell.
- `get_standing_normal` uses `max_by_key`, which keeps the last of several equal maxima. `PlayerSystems.LastMaxIndex` states that tie rule.

## Model

| member | source | states |
|---|---|---|
| Tilemap.ScanRow | src/tilemap.rs:116-137 | the plates of a row are exactly its maximal horizontal runs, in increasing `left` order |
| Tilemap.ContinueRects | src/tilemap.rs:147-169 | a plate that matches a previous rectangle continues it with `top + 1`; any other plate starts a rectangle at this row; the previous rectangles not continued are the terminated ones |
| Tilemap.CollectValues | src/tilemap.rs:172 | the terminated rectangles, in some order, each exactly once |
| Tilemap.MergeGrids | src/tilemap.rs:106-177 | a rectangle is emitted iff it is a maximal vertical stack of one maximal run; no rectangle is emitted twice; each lies inside the layer; no two share a cell; every cell of each is occupied; every occupied cell is covered; no tiles give no rectangles |
| Tilemap.RunStartsAgree | src/tilemap.rs:122-131 | the run ending at `x - 1` starts where the scan opened it |
| Tilemap.OrderedNoDup | src/tilemap.rs:122-134 | plates in increasing order are pairwise distinct |
| Tilemap.CurrentStep | src/tilemap.rs:147-169 | after a row, every rectangle in progress is the stack of its plate from its bottom row up to this row |
| Tilemap.EmittedStep | src/tilemap.rs:171-173 | the emitted rectangles are exactly the maximal stacks that ended below the current row, each once |
| Tilemap.StackBottomUnique | src/tilemap.rs:150-168 | a stack of one plate ending at a row has only one bottom |
| Tilemap.RunsOverlapEqual | src/tilemap.rs:122-134 | two maximal runs of a row that share a cell are the same run |
| Tilemap.StacksDisjoint | src/tilemap.rs:106-177 | two maximal stacks that share a cell are the same rectangle |
| Tilemap.RunLeftIsStart | src/tilemap.rs:122-131 | going left from an occupied cell reaches the run's first cell |
| Tilemap.RunRightIsEnd | src/tilemap.rs:122-130 | going right from an occupied cell reaches the run's last cell |
| Tilemap.StackBottomIsStart | src/tilemap.rs:150-168 | going down from a row holding a plate reaches the stack's bottom |
| Tilemap.StackTopIsEnd | src/tilemap.rs:145-173 | going up from a row holding a plate reaches the stack's top, and the plate is absent above it |
| Tilemap.CoveringStack | src/tilemap.rs:106-177 | every occupied cell lies in some maximal stack |
| Tilemap.ColliderOf | src/tilemap.rs:240-257 | the wall's cuboid spans exactly `[left*gs, (right+1)*gs]` by `[bottom*gs, (top+1)*gs]` |
| CheckPoint.UpsertCheckPoint | src/tilemap/check_point.rs:47-68 | insert iff there is no checkpoint; overwrite iff the new x is strictly further right; otherwise keep; a written checkpoint has the given coordinate and level; x never decreases |
| CheckPoint.UpsertAllKeepsRightmost | src/tilemap/check_point.rs:47-68 | after any sequence of upserts the stored x is the largest x seen |
| CheckPoint.UpsertAllMonotone | src/tilemap/check_point.rs:47-68 | the stored x after a prefix of the upserts is at most the x after a longer prefix |
| CheckPoint.SpawnedAtNone | src/tilemap/check_point.rs:72-86 | a player has no spawn record iff no added entity is that player |
| CheckPoint.SaveInitialCheckPoint | src/tilemap/check_point.rs:72-86 | each spawned player is upserted at its spawn translation: a player with a checkpoint gets the upsert's result, a player without one gets a new checkpoint; other entries are unchanged |
| CheckPoint.SaveLastCheckPoint | src/tilemap/check_point.rs:89-113 | one save event per colliding (sensor, player) pair; a player with a checkpoint gets the upserts of all its visits in sensor order; a player without one gets a checkpoint at its last visit, because the inserts are deferred; non-colliding players are unchanged |
| CheckPoint.VisitSensor | src/tilemap/check_point.rs:100-111 | one sensor's pass over the players: events equal its colliding players, and each colliding player's entry is upserted once |
| CheckPoint.SaveStep | src/tilemap/check_point.rs:89-113 | one more sensor keeps the pairing loop's invariant |
| CheckPoint.VisitsSnoc | src/tilemap/check_point.rs:99-101 | the visits over one more sensor are the old visits plus that sensor's translation when it collides |
| CheckPoint.VisitsEmpty | src/tilemap/check_point.rs:99-101 | a player has no visits iff no sensor collides with it |
| CheckPoint.SensorCollider | src/tilemap/check_point.rs:161-179 | a checkpoint sensor gets the same cuboid as a wall over the same rectangle |
| Player.ToF32 | src/player.rs:73-79 | the value is integral and in [-1, 1]; negative iff Left, positive iff Right |
| Player.DefaultDirection | src/player.rs:82-86 | the default direction converts to 0 |
| Player.Truncate | src/player.rs:88-99 | `as` truncation toward zero |
| Player.TryFromF32 | src/player.rs:88-99 | Left iff the value is in (-2, -1]; Neutral iff in (-1, 1); Right iff in [1, 2); any other value is an error |
| Player.TryFromToF32 | src/player.rs:73-99 | converting a direction to a float and back gives the same direction |
| Player.NewHealth | src/player.rs:36-41 | current and max are both the given value |
| Player.FindField | src/player.rs:46-50 | the first field with the name, or none when no field has it |
| Player.HealthFromEntity | src/player.rs:44-60 | succeeds iff the first HP field holds a positive integer, giving full health of that value; a missing field, zero and any other value of the first HP field are distinct errors, the last carrying that value |
| Player.DefaultPlayer | src/player.rs:154-166 | not dashing, rising, jumping or wall-sliding; facing Right; last normal (0, 1); never stood; CanJump |
| Player.Reset | src/player/systems.rs:65-70 | a reset timer keeps its duration and is finished only when that is 0 |
| Player.Tick | src/player/systems.rs:97-99 | a one-shot timer advances and stops at its duration; it is finished afterwards iff it was already, or the tick covers the rest |
| Player.TicksFinish | src/player/systems.rs:97-99 | n ticks finish an in-range timer iff they cover the time left |
| Player.DefaultDashInput | src/player.rs:100-112 | a fresh, unfinished 200 ms window with direction Neutral |
| PlayerSystems.NegAll | src/player/systems.rs:118-125 | every normal is negated |
| PlayerSystems.LastMaxIndex | src/player/systems.rs:127-129 | an index of maximal y; later entries are strictly lower, so ties go to the last |
| PlayerSystems.StandingNormal | src/player/systems.rs:108-141 | none iff there is no contact normal; otherwise a highest of all normals, oriented for the player, with a y below 0.0001 clamped to 0 |
| PlayerSystems.MaxByUpnessSound | src/player/systems.rs:127-129 | the selected normal is one of the list and no other is higher |
| PlayerSystems.ContactMaximaSound | src/player/systems.rs:112-129 | the per-contact maxima are empty iff all normals are, come from the normals, and the best of them is a highest normal |
| PlayerSystems.CoyoteNormal | src/player/systems.rs:164-174 | a real normal passes through; without one, the last normal is used iff jump is pressed, the player is not jumping, both times exist, and the window (inclusive) has not passed |
| PlayerSystems.SaturatingSub | src/player/systems.rs:168 | the `Instant` difference is zero iff `a` is not later than `b`, and otherwise exactly `a - b` |
| PlayerSystems.Classify | src/player/systems.rs:188-220 | each of the six statuses holds iff its guard holds: wall grab, floor, rising and falling, in that priority |
| PlayerSystems.NoAirJump | src/player/systems.rs:164-220 | a jumping player with no contacts never gets InitiateJump, CanJump or WallSliding |
| PlayerSystems.CoyoteJump | src/player/systems.rs:164-220 | inside the coyote window, with the last normal a floor, pressing jump starts a jump |
| PlayerSystems.JumpEffect | src/player/systems.rs:176-262 | rising iff InitiateJump or GoingUp; jumping iff InitiateJump, or still jumping and not grounded; wall-sliding iff WallSliding; the normal is remembered; the status is stored; other fields are unchanged |
| PlayerSystems.StatusEffect | src/player/systems.rs:222-262 | the status is stored; rising iff InitiateJump or GoingUp; jumping and wall-sliding turn on with InitiateJump and WallSliding; nothing else changes |
| PlayerSystems.Landed | src/player/systems.rs:176-191 | wall-sliding is cleared; a grounding normal ends the jump; a normal is remembered; nothing else changes |
| PlayerSystems.JumpVelocity | src/player/systems.rs:222-260 | horizontal speed is kept; InitiateJump adds the jump power, StoppingUp and Falling add gravity times their factor and dt, WallSliding stops vertical motion, the other statuses leave the velocity alone |
| PlayerSystems.TapDirection | src/player/systems.rs:52-58 | a Left tap wins over a Right tap |
| PlayerSystems.DashDecision | src/player/systems.rs:52-86 | on flat ground with a tap: record when the window is finished, boost when the tap repeats the recorded direction in time, restore otherwise; ignore without a tap or off flat ground |
| PlayerSystems.IdleFramesTick | src/player/systems.rs:97-99 | n frames without players tick the window n times |
| PlayerSystems.DoubleTapDashes | src/player/systems.rs:52-99 | for a lone player, a second tap in the same direction after n idle frames dashes iff it comes within the 200 ms window |
| PlayerSystems.FacingFlickers | src/player/systems.rs:23-34 | as written, facing Left with both keys held turns Right and then back Left |
| PlayerSystems.FacingAsWritten | src/player/systems.rs:23-34 | with one key held the facing follows it, with none it is unchanged; with both it turns Right when facing Left and Left otherwise |
| PlayerSystems.Facing | src/player/systems.rs:271-277 | Left when Left is held, else Right when Right is held, else unchanged |
| PlayerSystems.RunTarget | src/player/systems.rs:271-277 | -1 iff Left is held; 1 iff only Right is; 0 iff neither is |
| PlayerSystems.FacingMatchesRun | src/player/systems.rs:271-277 | the corrected facing has the run target's sign whenever a key is held, and is stable from frame to frame |
| PlayerSystems.RunVelocity | src/player/systems.rs:102-105 | y is kept, and the x gap to the target speed shrinks by the factor `1 - 10 dt` |
| PlayerSystems.PlayerBody.constructor | src/player.rs:142-166 | the default player at rest with gravity scale 1 |
| PlayerSystems.PlayerBody.CheckStanding | src/player/systems.rs:11-21 | the stand time is updated iff a standing normal exists; nothing else changes |
| PlayerSystems.PlayerBody.SetFacingDirection | src/player/systems.rs:23-34 | facing becomes the value of the source's rule as written; nothing else changes |
| PlayerSystems.PlayerBody.Jump | src/player/systems.rs:142-264 | the status is the classifier's for the possibly substituted normal, and the player's flags and velocity become the status's effects |
| PlayerSystems.PlayerBody.ApplyStatus | src/player/systems.rs:222-262 | the player becomes the status's flag effect |
| PlayerSystems.PlayerBody.Dash | src/player/systems.rs:52-95 | one iteration of the query loop: the window records a first tap and is otherwise untouched; the entity changes as `DashStep` says |
| PlayerSystems.DashSystem | src/player/systems.rs:36-100 | the window after the frame is every tap recorded in query order, then one tick; each player acts against the window the players before it left |
| PlayerSystems.RecordTap | src/player/systems.rs:65-70 | a first tap stores its direction and restarts the window; anything else leaves the window alone; the duration is kept |
| PlayerSystems.TickWindow | src/player/systems.rs:97-99 | the window ticks (stopping at its duration) and is finished afterwards iff it was, or the frame covered the time left; the direction is kept |
| PlayerSystems.RecordTaps | src/player/systems.rs:49-96 | after the loop the window keeps its duration and is either unchanged or was just restarted |
| PlayerSystems.IdleTapsOnlyTick | src/player/systems.rs:49-99 | a frame in which no player taps on flat ground, or with no players at all, leaves only the single tick |
| PlayerSystems.DashStep | src/player/systems.rs:62-95 | dashing stays on iff the tap boosts or a dash was on, and the window (after this tap) is still open; velocity moves toward the dash speed only on a boost; gravity is 0 on a boost, normal on record, restore or a finished dash, else unchanged |
| PlayerSystems.PlayerBody.Run | src/player/systems.rs:265-285 | the velocity steers toward the run target times the run speed; nothing else changes |
| Npc.PatrolGridPoints | src/npc.rs:97-102 | the first "Patrol" field decides: its points when it holds points, none when it holds anything else or when there is no such field |
| Npc.Present | src/npc.rs:103 | the present points: no more than the options, and exactly the values that are set |
| Npc.PresentAppend | src/npc.rs:103 | flattening the options of two lists one after the other is flattening each |
| Npc.PresentOne | src/npc.rs:103 | a present point is kept and a missing one dropped |
| Npc.WaypointPixel | src/npc.rs:107-113 | the pixel x is the bottom-centre `(x + 0.5) * grid` truncated toward zero (exact for an even grid size); the pixel y is exactly `(y + 1) * grid` |
| Npc.ReverseForward | src/npc.rs:169-173 | at the first waypoint the patrol turns forward, at the last one backward, elsewhere it keeps its direction |
| Npc.PatrolPoints | src/npc.rs:90-120 | the entity's own position, then each present patrol point, converted, in order |
| Npc.NextIndex | src/npc.rs:169-182 | the next waypoint is in bounds and adjacent; from the first it is 1, and from the last it is `len - 2` |
| Npc.Reversals | src/npc.rs:159-189 | any number of reversals keeps the index in bounds |
| Npc.PingPong | src/npc.rs:159-189 | from the start the patrol walks to the last waypoint and then back |
| Npc.ReversalsCompose | src/npc.rs:159-189 | n reversals and then m more equal n + m reversals |
| Npc.ForwardRun | src/npc.rs:178-179 | going forward, each reversal advances one waypoint |
| Npc.BackwardRun | src/npc.rs:180-181 | going backward, each reversal goes back one waypoint |
| Npc.Patrol.constructor | src/npc.rs:122-126 | index 1, forward, with the given points |
| Npc.Patrol.Step | src/npc.rs:159-190 | fewer than two points do nothing; without a reversal it heads for the current waypoint; on a reversal it snaps onto the waypoint, turns at the ends and moves one index; the index stays in bounds |
| Npc.Dead | src/npc.rs:151-157 | an enemy is listed iff its health is 0 |
| Npc.Despawn | src/npc.rs:151-157 | the enemies despawned are exactly the dead ones, in query order |
| Control.InsertAt | src/ui/control.rs:235 | an unbound input replaces the input in slot `index`, or is appended when there is no such slot; an input already bound changes nothing; other actions are unchanged |
| Control.Without | src/ui/control.rs:254 | the list without the input, and otherwise the same elements |
| Control.Remove | src/ui/control.rs:254 | the input is unbound from that action only |
| Control.FindConflict | src/ui/control.rs:223-228 | the first other action holding the input; none iff no action but the active one holds it |
| Control.InsertKeepsUnique | src/ui/control.rs:229-238 | binding an unconflicted input keeps every input on at most one action |
| Control.ReplaceKeepsUnique | src/ui/control.rs:247-266 | replace moves the input from the conflicting action to the active one and keeps bindings unique |
| Control.InputButton | src/ui/control.rs:409-434 | a pressed key first, then a pressed mouse button, then a gamepad change of strength at most 0.5; none iff none of these |
| Control.FirstKeyWins | src/ui/control.rs:410-416 | the first key press wins whatever other events follow it |
| Control.ControlMenu.constructor | src/ui/control.rs:150-164 | an empty map, no binding, the given configuration |
| Control.ControlMenu.SaveInputMap | src/ui/control.rs:602-609 | the configuration becomes the live map and one save event is sent |
| Control.ControlMenu.ShowPopup | src/ui/control.rs:75-147 | the chosen slot becomes the active binding, with no conflict |
| Control.ControlMenu.BindingWindow | src/ui/control.rs:200-241 | no binding: nothing changes; Esc: cancel and go back to the controls menu; a recorded conflict: go to the Conflict state; an input with a conflict: record it and keep the map; an input without one: bind it and end; each input received saves the map once |
| Control.ControlMenu.Replace | src/ui/control.rs:247-266 | with a conflict, the input moves to the active slot and the binding ends; the binding state always returns to NoBinding; the configuration is untouched |
| Control.ControlMenu.ReplaceAndSave | src/ui/control.rs:247-266 | replace, then the configuration holds the new map and one save event is sent |
| Control.ControlMenu.Cancel | src/ui/control.rs:273-276 | the binding ends and the state returns to NoBinding; the map is untouched |
| Control.ControlMenu.ResetInputs | src/ui/control.rs:185-197 | with a configuration, the defaults are restored and saved and the menu returns to controls; without one, nothing happens |
| Control.ControlMenu.OpenMenu | src/ui/control.rs:442-444 | an empty map is replaced by the defaults; any other map is kept |
| Control.ControlMenu.LoadControlInputMap | src/ui/control.rs:611-620 | a changed configuration replaces the live map |
| Control.ControlMenu.Cleanup | src/ui/control.rs:59-62 | the binding ends and the state returns to NoBinding |
| Control.ReplaceLeavesConfigStale | src/ui/control.rs:247-266 | after a conflict and a replace, the live map and the saved configuration differ |
| Save.FilePrefix | src/save.rs:41 | the name before its first dot that is not at the start; the whole name when there is none |
| Save.FirstDotAfterStart | src/save.rs:41 | the first dot at index 1 or later, or none |
| Save.DotFrom | src/save.rs:41 | the first dot at or after an index, or none |
| Save.NatToString | src/save.rs:38 | one or more decimal digits; a single digit iff the number is below 10 |
| Save.NatToStringInjective | src/save.rs:38 | different numbers are written differently |
| Save.SaveFilePrefix | src/save.rs:38-41 | the prefix of `save_k.bin` is `save_k` |
| Save.SaveFileName | src/save.rs:38 | the name is `save_`, then at least one decimal digit, then `.bin` |
| Save.LessEqTotal | src/save.rs:55 | any two paths are ordered one way or the other |
| Save.LessEqTransitive | src/save.rs:55 | the path order is transitive |
| Save.Insert | src/save.rs:55 | inserting into a sorted list keeps it sorted and adds exactly that element |
| Save.SortPaths | src/save.rs:55 | sorted, and a permutation of its input |
| Save.FileNames | src/save.rs:48-53 | exactly the readable entries that are files |
| Save.GetSaves | src/save.rs:47-70 | no saves for an unreadable directory; otherwise one save per file, sorted by name, each named by its file prefix, with its path and no data |
| Save.PathOrderIsNameOrder | src/save.rs:55 | paths in the save directory sort as their file names do |
| Save.CommonPrefix | src/save.rs:55 | a common prefix does not change the order |
| Save.NewSave | src/save.rs:36-45 | with k saves the path is `saves/save_k.bin`, the file name `save_k`, and there is no data |
| Save.NewSaveOverwrites | src/save.rs:36-45 | with saves 0 and 2 left, the new save's path is that of an existing save |
| Save.FreeSaveNumber | src/save.rs:38 | the smallest number whose save file does not exist |
| Save.SaveFileNameInjective | src/save.rs:38 | different save numbers give different file names |
| Save.NewFreshSave | src/save.rs:36-45 | a new save whose path no existing save has |
| Save.NewSlots | src/save.rs:72-86 | the existing saves first and unchanged, then empty "New Save" slots, so the length is the larger of the two |
| Save.SaveEvents.constructor | src/save.rs:97 | no pending events |
| Save.SaveEvents.Send | src/tilemap/check_point.rs:99-111 | one more pending event |
| Save.SaveEvents.OnSaveEvent | src/save.rs:107-114 | true iff an event is pending, and then none is left |
| Audio.DefaultChannel | src/audio.rs:33-46 | no handles, no request, volume 1 |
| Audio.ResetFlags | src/audio.rs:24-31 | the four request flags are cleared and everything else is kept |
| Audio.SetupMusic | src/audio.rs:80-103 | issues a stop, then loads the source with a looped play and a stop requested |
| Audio.PlayChannel | src/audio.rs:105-125 | plays iff a source is loaded, looped iff the flag is set; remembers the instance, forgets the source and clears the flags; otherwise nothing |
| Audio.OnFlag | src/audio.rs:127-155 | the command is issued iff its flag is set, and then every flag is cleared |
| Audio.PauseChannel | src/audio.rs:127-135 | pauses iff paused is requested, and clears the flags |
| Audio.ResumeChannel | src/audio.rs:137-145 | resumes iff resumed is requested, and clears the flags |
| Audio.StopChannel | src/audio.rs:147-155 | stops iff stopped is requested, and clears the flags |
| Audio.SetChannelVolume | src/audio.rs:157-165 | sends the volume iff it is not 0, and leaves 0 behind |
| Audio.RequestsServedOnce | src/audio.rs:105-165 | running any channel system twice issues nothing the second time |
| Audio.PlayFirstLoops | src/audio.rs:70-125 | after a music change, playing first starts the source looped, and the stop request is gone |
| Audio.StopFirstPlaysOnce | src/audio.rs:70-155 | after a music change, stopping first clears the looped flag, so the source plays once |
| Audio.ChannelState.constructor | src/audio.rs:33-46 | the default channel |
| Audio.ChannelState.Reset | src/audio.rs:24-31 | the state becomes its reset |
| Audio.ChannelState.PlayMusic | src/audio.rs:80-103 | the state and command of the music setup |
| Audio.ChannelState.Play | src/audio.rs:105-125 | the state and command of `play_channel` |
| Audio.ChannelState.PauseRequested | src/audio.rs:127-135 | the state and command of `pause_channel` |
| Audio.ChannelState.ResumeRequested | src/audio.rs:137-145 | the state and command of `resume_channel` |
| Audio.ChannelState.StopRequested | src/audio.rs:147-155 | the state and command of `stop_channel` |
| Audio.ChannelState.ApplyVolume | src/audio.rs:157-165 | the state and command of `set_channel_volume` |

## Left out

- Physics integration is not modelled, because it is floating-point engine behaviour. This covers:
  - the gravity and jump-power solve;
  - gravity integration while falling or stopping;
  - the jump impulse magnitude;
  - camera fitting;
  - projectile checks;
  - NPC velocity normalisation.
- Floats are modelled as exact reals with the source's constants. Rounding of `f32` is not modelled.
- The gravity `rapier_config.gravity.y` and the frame time are parameters of the jump and dash updates. The physics step that consumes the velocities is not modelled.
- `PlayerSystems.RunVelocity` uses exact real arithmetic in place of the `f32` lerp.
- `PlayerSystems.PlayerBody.Jump`: the model runs the systems one at a time. In the source, `dash`, `run` and `jump` share one unordered system set.
- File I/O and serialisation in the save module are not modelled, because they are I/O. This covers the temporary-file write and rename, MessagePack encoding, and the asynchronous task.
- UI tree construction and marker moving are not modelled, because they are layout glue.
- The UI's file deletion is represented only as a directory listing with a file missing.
- `Control.InsertAt`, `Control.Remove`: leafwing's `insert_at` and `remove` are not part of this model. They are given the plain meaning described above.
- The action enum, its default map and the configuration file format are not part of this model.
- `Control.ControlMenu.BindingWindow`: Bevy's deferred resource removal is applied immediately. No system in the model reads the binding in between.
- `Save.GetSaves` orders paths by character code. For the UTF-8 names Rust compares, this is the same order as comparing bytes.
- `Save.GetSaves` assumes every entry lies directly in the save directory with a file name free of `/`; the listing gives names directly.
- `Npc.PatrolPoints`: the level plugin's pivoted pixel-to-translation conversion is a parameter, because it is library code.
- Rapier's contact query and collision detection are not modelled. Contacts, colliding entities and sensor overlaps are inputs.
- kira audio playback and asset loading are not modelled. Commands and handles are values.

## Findings

| source | as written | input that shows it | evidently intended | confidence | as-written member | corrected member |
|---|---|---|---|---|---|---|
| src/player/systems.rs:23-34 | facing turns Left only when not already Left, else Right only when not already Right | Left and Right held together while facing Left: the facing turns Right, then Left on the next frame, and keeps flipping | Left first, as `run` picks its target at src/player/systems.rs:271-277, so facing matches the run direction | medium, not executed | PlayerSystems.FacingFlickers | PlayerSystems.FacingMatchesRun |
| src/ui/control.rs:247-266 | replacing a conflicting binding changes the live map but never calls `save_input_map` | action 1 rebinds a key held by action 0 and the conflict is replaced: the live map is `[[], [key]]` and the saved one is `[[key], []]` | save after a replace, as the binding window does after every change at src/ui/control.rs:239 | low, not executed | Control.ReplaceLeavesConfigStale | Control.ControlMenu.ReplaceAndSave |
| src/save.rs:36-45 | the new save is numbered by the count of existing saves | saves 0, 1 and 2 exist and save 1 is deleted: the new save is numbered 2 and overwrites `saves/save_2.bin` | a number no existing save file has | medium, not executed | Save.NewSaveOverwrites | Save.NewFreshSave |
