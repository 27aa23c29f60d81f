# Zero Deaths — a Dafny model of the game core

"Zero Deaths" is a small MonoGame 3D game. The top-level `Main` class builds an
event dispatcher, a menu, a sound manager, a death-count text and its
controller, and a game-state manager. It loads a level from two images with a
`LevelLoader` and runs a per-frame `Update`: the Escape key toggles pause, a
demo block asks the object manager to act on the first match of a query, and
a level that is not yet loaded is loaded.

The player, the enemies and the loaded boxes are `CollidablePrimitiveObject`s:
- the player moves with the keyboard;
- collecting a pickup publishes a removal event;
- touching an enemy or an obstacle sends the player back to the spawn point and counts a death;
- enemies chase the player when it comes within range.

The components talk to each other only through events. An event has a
category, an action and parameters. The model assumes that an event reaches
the subscribers of its category in the order they subscribed. The dispatcher
is itself a game component (Main.cs:506-507), so delivery may be queued until
its own update rather than made inside `Publish`; the model does not decide
when delivery happens, only who receives an event and in which order.

The model has one Dafny module per source file: `MainGame`, `Levels`, `Sound`,
`Player`, `Enemy`, `Collidable`, `Menu`, `GameState`, `DeathCount` and
`Rotation`. `Common` holds the shared value types: `Option`, `Vec3`,
`Transform3D`, actor types, status flags and decimal text of integers.
`Events` holds event values and the dispatcher.

Each class the source mutates is a Dafny `class` whose methods have
`modifies` clauses. Every method is proved against a pure function of the old
state: for example `GameState.MyGameStateManager.HandleEvent` is proved against
`GameState.StateAfter`. The properties the game relies on are lemmas about
those functions. Examples:
- the death count is the running total of the changes;
- loaded actor IDs are distinct across both loads of a level;
- the M key toggles the menu;
- Escape toggles pause;
- a win leads to the next level being loaded on the next frame.

Publishing an event is modelled as appending it to the dispatcher's log. Who
would receive it is computed by `Events.Receivers` from the subscription
list.

## Model

| member | source | states |
|---|---|---|
| Common.IntToStringRoundTrip | GDGame/MyGame/Controllers/DeathCountController.cs:22 | the decimal text of any integer is well formed and reads back as that integer |
| Common.IntToStringInjective | GDGame/MyGame/Managers/State/MyGameStateManager.cs:43 | two integers with the same decimal text are equal |
| Common.PrefixedNumberInjective | GDLibrary/Core/Utilities/LevelLoader.cs:102 | a fixed prefix followed by a count gives equal texts exactly when the counts are equal |
| Collidable.CollidablePrimitiveObject.constructor | GDLibrary/Core/Actors/Drawn/3D/Collidable/CollidablePrimitiveObject.cs:61-71 | every argument is stored and there is no collidee yet |
| Collidable.CollidablePrimitiveObject.GetCollidee | GDLibrary/Core/Actors/Drawn/3D/Collidable/CollidablePrimitiveObject.cs:28-38 | the getter returns the stored collidee |
| Collidable.CollidablePrimitiveObject.SetCollidee | GDLibrary/Core/Actors/Drawn/3D/Collidable/CollidablePrimitiveObject.cs:28-38 | the setter stores its value and changes nothing else |
| Collidable.CollidablePrimitiveObject.GetCollisionPrimitive | GDLibrary/Core/Actors/Drawn/3D/Collidable/CollidablePrimitiveObject.cs:39-49 | the getter returns the stored primitive |
| Collidable.CollidablePrimitiveObject.SetCollisionPrimitive | GDLibrary/Core/Actors/Drawn/3D/Collidable/CollidablePrimitiveObject.cs:39-49 | the setter stores its value and changes nothing else |
| Collidable.CollidablePrimitiveObject.GetObjectManager | GDLibrary/Core/Actors/Drawn/3D/Collidable/CollidablePrimitiveObject.cs:50-56 | the getter returns the object manager given at construction |
| Collidable.CollidablePrimitiveObject.HandleInput | GDLibrary/Core/Actors/Drawn/3D/Collidable/CollidablePrimitiveObject.cs:74-76 | the base input handler changes nothing |
| Collidable.CollidablePrimitiveObject.HandleCollisionResponse | GDLibrary/Core/Actors/Drawn/3D/Collidable/CollidablePrimitiveObject.cs:79-81 | the base collision response changes nothing |
| Collidable.CollidablePrimitiveObject.CheckCollisions | GDLibrary/Core/Actors/Drawn/3D/Collidable/CollidablePrimitiveObject.cs:84-87 | the base collision check finds nothing |
| Collidable.CollideeRoundTrip | GDLibrary/Core/Actors/Drawn/3D/Collidable/CollidablePrimitiveObject.cs:28-38 | the collidee read back after a set is the value set, the base collision test reports nothing, and the collision primitive is untouched |
| Levels.IdTextInjective | GDLibrary/Core/Utilities/LevelLoader.cs:102 | the "cube n" and "Pyramid n" IDs are equal as text exactly when they are equal as IDs |
| Levels.PixelTranslationInjective | GDLibrary/Core/Utilities/LevelLoader.cs:67-70 | with nonzero scales, two pixels are placed at the same point exactly when they are the same pixel |
| Levels.FromColor | GDLibrary/Core/Utilities/LevelLoader.cs:88-159 | exact red yields a "cube n" collidable decorator and exact blue a "Pyramid n" collidable obstacle; either carries the current count, is drawn and updated, sits unrotated at the given translation with a box collision primitive and alpha 1; the cube is the lit textured cube with the "walls" texture at scale (20, 30, 10), the pyramid the lit textured pyramid with the "redCube" texture at scale (10, 10, 10); every other colour yields nothing |
| Levels.ColumnRowAreDivMod | GDLibrary/Core/Utilities/LevelLoader.cs:58-62 | the pixel index `x + y*width` of a row-major scan splits back into the column `i % width` and the row `i / width` |
| Levels.RowMajor | GDLibrary/Core/Utilities/LevelLoader.cs:58-62 | the pixel visited at (x, y) is the one at index `y*width + x` |
| Levels.Producing | GDLibrary/Core/Utilities/LevelLoader.cs:58-78 | the indices of the pixels that produce an actor, each below the scan bound |
| Levels.ProducingComplete | GDLibrary/Core/Utilities/LevelLoader.cs:58-78 | every red or blue pixel is among those indices, and the indices are in increasing scan order |
| Levels.ScanLength | GDLibrary/Core/Utilities/LevelLoader.cs:47-82 | the list has as many actors as the image has red and blue pixels |
| Levels.ScanAt | GDLibrary/Core/Utilities/LevelLoader.cs:47-82 | the j-th listed actor comes from the j-th producing pixel, placed at that pixel and numbered `count + j` |
| Levels.ScanIsProducingMap | GDLibrary/Core/Utilities/LevelLoader.cs:47-82 | the list is exactly the producing pixels, in order, each turned into its actor |
| Levels.ScanNumbered | GDLibrary/Core/Utilities/LevelLoader.cs:86-134 | the actors of one load are numbered consecutively from the loader's count |
| Levels.ScanIsCollidable | GDLibrary/Core/Utilities/LevelLoader.cs:88-159 | every loaded actor is a collidable decorator or a collidable obstacle |
| Levels.ScanIdsDistinct | GDLibrary/Core/Utilities/LevelLoader.cs:86-134 | two actors of one load never share an ID |
| Levels.ConsecutiveRunsDistinct | GDLibrary/Core/Utilities/LevelLoader.cs:86 | runs numbered one after the other have no ID in common |
| Levels.SuccessiveLoadsDistinct | GDLibrary/Core/Utilities/LevelLoader.cs:86 | two loads through the same loader, as a level makes them, give actors with distinct IDs |
| Levels.ScanStep | GDLibrary/Core/Utilities/LevelLoader.cs:60-78 | one inner-loop step appends exactly the actor of the current pixel |
| Levels.RowsCover | GDLibrary/Core/Utilities/LevelLoader.cs:51 | the rows of a `width*height` colour array end exactly at its length |
| Levels.RowFits | GDLibrary/Core/Utilities/LevelLoader.cs:51 | every row lies inside the colour array |
| Levels.LevelLoader.constructor | GDLibrary/Core/Utilities/LevelLoader.cs:38-45 | a new loader's count starts at 1 |
| Levels.LevelLoader.GetObjectFromColor | GDLibrary/Core/Utilities/LevelLoader.cs:88-159 | returns `FromColor` at the current count and increments the count exactly when it makes an actor |
| Levels.LevelLoader.LoadPixel | GDLibrary/Core/Utilities/LevelLoader.cs:62-77 | the inner loop's body extends the list to the scan of one more pixel |
| Levels.LevelLoader.LoadRow | GDLibrary/Core/Utilities/LevelLoader.cs:60-79 | the inner loop extends the list to the scan of one more row |
| Levels.LevelLoader.Load | GDLibrary/Core/Utilities/LevelLoader.cs:47-82 | the list is the row-major scan of the image from the current count, and the count advances by the list's length |
| Sound.TrimStart | GDLibrary/Core/Managers/Sound/SoundManager.cs:151 | drops exactly the leading white space |
| Sound.TrimEnd | GDLibrary/Core/Managers/Sound/SoundManager.cs:151 | drops exactly the trailing white space |
| Sound.Trim | GDLibrary/Core/Managers/Sound/SoundManager.cs:151 | the result neither starts nor ends with white space |
| Sound.TrimSlice | GDLibrary/Core/Managers/Sound/SoundManager.cs:151 | the trimmed ID is a contiguous slice of the ID with only white space cut on either side |
| Sound.TrimIdempotent | GDLibrary/Core/Managers/Sound/SoundManager.cs:234 | trimming an already trimmed ID changes nothing |
| Sound.ValidPlayCount | GDLibrary/Core/Managers/Sound/SoundManager.cs:51-61 | a positive count is kept and any other becomes 1 |
| Sound.ValidTimeLimit | GDLibrary/Core/Managers/Sound/SoundManager.cs:63-85 | a positive time is kept and any other becomes NO_LIMIT_SPECIFIED (-1) |
| Sound.ValidVolume | GDLibrary/Core/Managers/Sound/SoundManager.cs:99-109 | a volume in [0, 1] is kept and any other becomes 1 |
| Sound.ValidSigned | GDLibrary/Core/Managers/Sound/SoundManager.cs:111-133 | a pitch or pan in [-1, 1] is kept and any other becomes 0 |
| Sound.SettersIdempotent | GDLibrary/Core/Managers/Sound/SoundManager.cs:51-133 | setting a cue property to the value it already holds changes nothing |
| Sound.Clamp | GDLibrary/Core/Managers/Sound/SoundManager.cs:222-230 | the master volume lies in [0, 1], equals the request inside it, and equals the nearer bound outside it |
| Sound.Cue.constructor | GDLibrary/Core/Managers/Sound/SoundManager.cs:149-156 | the cue's ID is the trimmed argument and the other arguments are stored |
| Sound.Cue.SetMaxPlayCount | GDLibrary/Core/Managers/Sound/SoundManager.cs:51-61 | stores the validated play count |
| Sound.Cue.SetTimeToLiveInMs | GDLibrary/Core/Managers/Sound/SoundManager.cs:63-73 | stores the validated time to live |
| Sound.Cue.SetMinTimeSinceLastPlayedInMs | GDLibrary/Core/Managers/Sound/SoundManager.cs:75-85 | stores the validated minimum replay time |
| Sound.Cue.SetVolume | GDLibrary/Core/Managers/Sound/SoundManager.cs:99-109 | stores the validated volume and keeps pitch and pan |
| Sound.Cue.SetPitch | GDLibrary/Core/Managers/Sound/SoundManager.cs:111-121 | stores the validated pitch and keeps volume and pan |
| Sound.Cue.SetPan | GDLibrary/Core/Managers/Sound/SoundManager.cs:123-133 | stores the validated pan and keeps volume and pitch |
| Sound.FirstEligible | GDLibrary/Core/Managers/Sound/SoundManager.cs:273-376 | the index the control loops stop at: it is eligible, no earlier entry is, and there is none exactly when no entry is eligible |
| Sound.ControlChangesOnlyFirstMatch | GDLibrary/Core/Managers/Sound/SoundManager.cs:273-376 | a pause, resume or volume control changes only the first eligible instance, and that one as the control says |
| Sound.StopRemovesFirstPlaying | GDLibrary/Core/Managers/Sound/SoundManager.cs:310-332 | stop removes exactly the first playing instance with the ID and keeps the rest in order |
| Sound.RemoveAtMultiset | GDLibrary/Core/Managers/Sound/SoundManager.cs:310-332 | removing an instance loses that one instance and no other |
| Sound.ChangeVolumeStaysAudible | GDLibrary/Core/Managers/Sound/SoundManager.cs:354-376 | a volume change that is applied leaves the volume inside [0, 1] |
| Sound.PauseThenResume | GDLibrary/Core/Managers/Sound/SoundManager.cs:273-308 | with no paused instance under the ID, a pause followed by a resume restores the instance list |
| Sound.Added | GDLibrary/Core/Managers/Sound/SoundManager.cs:212-218 | a cue is registered under its ID unless that ID is already taken, in which case the dictionary is unchanged |
| Sound.FirstRegistrationWins | GDLibrary/Core/Managers/Sound/SoundManager.cs:212-218 | adding a second cue with the same ID keeps the first |
| Sound.PlayKeyIsTrimmed | GDLibrary/Core/Managers/Sound/SoundManager.cs:232-250 | trimming the requested ID again finds the same dictionary entry |
| Sound.SoundManager.constructor | GDLibrary/Core/Managers/Sound/SoundManager.cs:177-182 | empty dictionary, no instances, master volume 1 |
| Sound.SoundManager.SubscribeToEvents | GDLibrary/Core/Managers/Sound/SoundManager.cs:186-192 | subscribes to Sound events |
| Sound.SoundManager.Add | GDLibrary/Core/Managers/Sound/SoundManager.cs:212-218 | the dictionary becomes `Added` of the old one |
| Sound.SoundManager.SetMasterVolume | GDLibrary/Core/Managers/Sound/SoundManager.cs:222-225 | the master volume becomes the request clamped to [0, 1] |
| Sound.SoundManager.ChangeMasterVolume | GDLibrary/Core/Managers/Sound/SoundManager.cs:227-230 | the master volume becomes the old one plus the change, clamped to [0, 1] |
| Sound.SoundManager.Play2D | GDLibrary/Core/Managers/Sound/SoundManager.cs:232-250 | a registered trimmed ID starts a new playing instance of its cue; an unknown ID changes nothing |
| Sound.SoundManager.Play3D | GDLibrary/Core/Managers/Sound/SoundManager.cs:252-271 | as Play2D, with the instance marked as positioned in 3D |
| Sound.SoundManager.ControlFirst | GDLibrary/Core/Managers/Sound/SoundManager.cs:273-376 | the shared loop: reports whether some instance was eligible and applies the control to the first such instance only |
| Sound.SoundManager.Pause | GDLibrary/Core/Managers/Sound/SoundManager.cs:273-290 | pauses the first playing instance of the trimmed ID |
| Sound.SoundManager.Resume | GDLibrary/Core/Managers/Sound/SoundManager.cs:292-308 | resumes the first paused instance of the trimmed ID |
| Sound.SoundManager.SetVolume | GDLibrary/Core/Managers/Sound/SoundManager.cs:334-352 | sets the volume of the first playing or paused instance of the trimmed ID |
| Sound.SoundManager.ChangeVolume | GDLibrary/Core/Managers/Sound/SoundManager.cs:354-376 | changes the volume of the first playing or paused instance whose new volume stays in [0, 1] |
| Sound.SoundManager.Stop | GDLibrary/Core/Managers/Sound/SoundManager.cs:310-332 | stops and removes the first playing instance of the trimmed ID |
| Sound.SoundManager.HandleEvent | GDLibrary/Core/Managers/Sound/SoundManager.cs:194-210 | OnPlay2D and OnPlay3D play their first parameter; every other action leaves the instances alone |
| Player.Stage | GDGame/MyGame/Actors/CollidablePlayerObject.cs:64-97 | rotate right turns by -90 and beats rotate left (+90); with no movement key the increment is kept; forward alone stages `look * ms * speed` and backward alone `-look * ms * speed` |
| Player.StrafeAddsOn | GDGame/MyGame/Actors/CollidablePlayerObject.cs:79-86 | left adds `-right * ms * speed` and otherwise right adds `right * ms * speed` on top of what forward, backward or the old increment staged |
| Player.ForwardBeatsBackward | GDGame/MyGame/Actors/CollidablePlayerObject.cs:66-77 | while forward is held, the backward key makes no difference |
| Player.LeftBeatsRight | GDGame/MyGame/Actors/CollidablePlayerObject.cs:79-86 | while left is held, the right key makes no difference |
| Player.Respond | GDGame/MyGame/Actors/CollidablePlayerObject.cs:102-145 | a zone clears the collidee; a pickup publishes its removal; an enemy or an obstacle sends the player to (150, 2.5, 500), adds one death and tints it, an enemy yellow and an obstacle purple; at most one event is published |
| Player.TurnAboutUp | GDGame/MyGame/Actors/CollidablePlayerObject.cs:88-95 | a quarter turn about the up axis keeps a direction's height and its length in the XZ plane |
| Player.TurnBack | GDGame/MyGame/Actors/CollidablePlayerObject.cs:88-95 | a turn right is undone by a turn left and the other way round |
| Player.FullTurn | GDGame/MyGame/Actors/CollidablePlayerObject.cs:88-95 | two quarter turns the same way reverse a direction in the XZ plane, and four restore it |
| Player.Turned | GDGame/MyGame/Actors/CollidablePlayerObject.cs:88-95 | `RotateAroundUpBy` adds the degrees to the rotation about Y and turns Look and Right, keeping translation, scale, increment, collidee and deaths |
| Player.ZoneEvents | GDGame/MyGame/Actors/CollidablePlayerObject.cs:104-119 | only the zone "sound and camera trigger zone 1" publishes, and what it publishes is the "smokealarm" 2D sound |
| Player.PickupEvents | GDGame/MyGame/Actors/CollidablePlayerObject.cs:120-128 | a pickup publishes exactly its own removal |
| Player.ZoneNeverBlocks | GDGame/MyGame/Actors/CollidablePlayerObject.cs:42-62 | a frame that meets a zone moves the player by the staged increment |
| Player.PickupVetoesMovement | GDGame/MyGame/Actors/CollidablePlayerObject.cs:42-62 | a frame that meets a pickup removes it, keeps the player in place and counts no death |
| Player.DeathResetsPlayer | GDGame/MyGame/Actors/CollidablePlayerObject.cs:130-143 | a frame that meets an enemy or an obstacle puts the player at the spawn point with one more death and publishes nothing |
| Player.FrameTurns | GDGame/MyGame/Actors/CollidablePlayerObject.cs:42-97 | every frame turns Look, Right and the rotation by the requested quarter turn, and a frame with no collidee steps by the increment staged along the Look and Right from before the turn |
| Player.TurnSteersNextFrame | GDGame/MyGame/Actors/CollidablePlayerObject.cs:64-95 | after a frame that only turns right, a frame that only holds forward steps along the turned Look |
| Player.DeathCountCountsDeaths | GDGame/MyGame/Actors/CollidablePlayerObject.cs:130-143 | over a run of frames the death count grows by the number of deadly collisions |
| Player.CollidablePlayerObject.constructor | GDGame/MyGame/Actors/CollidablePlayerObject.cs:25-40 | the player starts with no collidee, no staged movement and no deaths |
| Player.CollidablePlayerObject.RotateAroundUpBy | GDGame/MyGame/Actors/CollidablePlayerObject.cs:88-95 | the new state is `Turned` of the old one |
| Player.CollidablePlayerObject.HandleInput | GDGame/MyGame/Actors/CollidablePlayerObject.cs:64-97 | stores the increment `Stage` computes from the old Look and Right, then turns the transform, Look and Right by the quarter turn `Stage` requests |
| Player.CollidablePlayerObject.HandleCollisionResponse | GDGame/MyGame/Actors/CollidablePlayerObject.cs:102-145 | applies `Respond`: collidee, translation, death count, tint and published events |
| Player.CollidablePlayerObject.ApplyInput | GDGame/MyGame/Actors/CollidablePlayerObject.cs:55-58 | moves the player by the staged increment |
| Player.CollidablePlayerObject.Update | GDGame/MyGame/Actors/CollidablePlayerObject.cs:42-62 | the new state (translation, rotation, Look and Right, collidee, deaths), tint and published events are those of `PlayerFrame` |
| Enemy.SquaredDistance | GDGame/MyGame/Actors/CollidableEnemy.cs:46 | the squared distance is never negative |
| Enemy.Chase | GDGame/MyGame/Actors/CollidableEnemy.cs:44-69 | within 100 units the enemy steps 0.2 towards the player on X and on Z, a tie going positive; out of range it stays put; its height never changes |
| Enemy.Respond | GDGame/MyGame/Actors/CollidableEnemy.cs:92-117 | a zone clears the collidee; a pickup publishes exactly one Object/OnRemoveActor event carrying it; a player is kept as collidee with no event |
| Enemy.ChaseIsTheOnlyMove | GDGame/MyGame/Actors/CollidableEnemy.cs:31-79 | whatever it meets, a frame moves the enemy exactly by the chase step |
| Enemy.PlayerCollideeStays | GDGame/MyGame/Actors/CollidableEnemy.cs:92-117 | meeting the player keeps it as collidee, publishes nothing and skips the increment |
| Enemy.ChaseRunKeepsHeight | GDGame/MyGame/Actors/CollidableEnemy.cs:46-67 | however long it chases, the enemy keeps its height |
| Enemy.CollidableEnemy.constructor | GDGame/MyGame/Actors/CollidableEnemy.cs:22-29 | speed, range and player are stored and there is no collidee |
| Enemy.CollidableEnemy.HandleCollisionResponse | GDGame/MyGame/Actors/CollidableEnemy.cs:92-117 | applies `Respond` to the collidee and the log |
| Enemy.CollidableEnemy.TranslateBy | GDGame/MyGame/Actors/CollidableEnemy.cs:51-66 | moves the enemy by the given vector |
| Enemy.CollidableEnemy.Update | GDGame/MyGame/Actors/CollidableEnemy.cs:31-79 | looks up the player; the new state, log and applied flag are those of `EnemyFrame` |
| Rotation.RotationAfterIsLinear | GDLibrary/Core/Controllers/3D/Actor/RotationController.cs:20-30 | after n updates the rotation has grown by `n * speed` along the axis |
| Rotation.TurnBack | GDLibrary/Core/Controllers/3D/Actor/RotationController.cs:20-30 | a turn undone by the opposite speed restores the rotation |
| Rotation.RotationController.constructor | GDLibrary/Core/Controllers/3D/Actor/RotationController.cs:13-18 | the ID, speed and axis are stored |
| Rotation.RotationController.Update | GDLibrary/Core/Controllers/3D/Actor/RotationController.cs:20-30 | a 3D actor's rotation grows by `speed * axis` and its translation and scale are kept; any other actor is left alone |
| DeathCount.DeathCountText | GDGame/MyGame/Controllers/DeathCountController.cs:22 | the text "Death Count: " followed by n shows n |
| DeathCount.DeathCountTextInjective | GDGame/MyGame/Controllers/DeathCountController.cs:22 | two death-count texts are equal exactly when their counts are |
| DeathCount.ShowsOneCount | GDGame/MyGame/Controllers/DeathCountController.cs:22 | one text cannot show two different counts |
| DeathCount.ControllerText | GDGame/MyGame/Controllers/DeathCountController.cs:18-24 | a death-count change replaces the text with one showing the event's value; any other UI event keeps the text |
| DeathCount.ControllerTextAbsolute | GDGame/MyGame/Controllers/DeathCountController.cs:18-24 | the controller's new text depends on the event alone, not on the previous text, and handling the event twice gives the same text |
| DeathCount.DeathCountController.constructor | GDGame/MyGame/Controllers/DeathCountController.cs:12-16 | the controller holds its text object and subscribes to UI events |
| DeathCount.DeathCountController.HandleEvents | GDGame/MyGame/Controllers/DeathCountController.cs:18-24 | the shared text becomes `ControllerText` of the old one |
| GameState.StateAfter | GDGame/MyGame/Managers/State/MyGameStateManager.cs:36-57 | a UI death-count change adds its value to the count and shows the new total; a Player win adds its value plus one to the level; nothing else changes anything |
| GameState.DeliverAccumulates | GDGame/MyGame/Managers/State/MyGameStateManager.cs:36-57 | after a run of events the count is the start plus the sum of the changes and the level the start plus the win jumps; a text that shows the count keeps showing it |
| GameState.SharedTextOrder | GDGame/MyGame/Managers/State/MyGameStateManager.cs:38-44 | the shared text shows the running total when the manager writes after the controller, and only the last change in the other order |
| GameState.MyGameStateManager.constructor | GDGame/MyGame/Managers/State/MyGameStateManager.cs:23-28 | count 0, level 1, and the given text object |
| GameState.MyGameStateManager.SubscribeToEvents | GDGame/MyGame/Managers/State/MyGameStateManager.cs:30-33 | subscribes to UI events only |
| GameState.MyGameStateManager.HandleEvent | GDGame/MyGame/Managers/State/MyGameStateManager.cs:36-57 | the new count, level and text are those of `StateAfter` |
| GameState.MyGameStateManager.EndScreen | GDGame/MyGame/Managers/State/MyGameStateManager.cs:66-79 | publishes a game-over event holding a copy of the current text, then resets the count to 0 and the text to exactly "Death Count: 0", keeping the level |
| Menu.AfterEvent | GDGame/MyGame/Managers/Menu/MyMenuManager.cs:27-46 | a menu pause shows the menu, a menu play hides it, a player game-over shows it on the "end" scene; every other event changes nothing |
| Menu.Clicked | GDGame/MyGame/Managers/Menu/MyMenuManager.cs:79-118 | "play" publishes the click sound and the play event; "End_Button" and "exit" publish the click sound and ask to exit; "controls" switches to the controls scene; nothing is published for any other button |
| Menu.MouseRun | GDGame/MyGame/Managers/Menu/MyMenuManager.cs:61-77 | the mouse never changes the status, publishes only click sounds and play events, and asks to exit exactly when an exit button under the mouse is clicked |
| Menu.NoClickNoEffect | GDGame/MyGame/Managers/Menu/MyMenuManager.cs:61-77 | without a click the mouse has no effect at all |
| Menu.KeyboardEvents | GDGame/MyGame/Managers/Menu/MyMenuManager.cs:120-137 | M publishes one event: the pause (show menu) event when the menu is hidden, the play event otherwise |
| Menu.HiddenMenuIgnoresMouse | GDGame/MyGame/Managers/Menu/MyMenuManager.cs:49-59 | a menu that is not updating reads only the keyboard |
| Menu.MToggles | GDGame/MyGame/Managers/Menu/MyMenuManager.cs:120-137 | the event M publishes, once handled, flips a shown menu to hidden and back |
| Menu.PlayStartsGame | GDGame/MyGame/Managers/Menu/MyMenuManager.cs:79-118 | the events "play" publishes, once handled, hide the menu |
| Menu.MyMenuManager.constructor | GDGame/MyGame/Managers/Menu/MyMenuManager.cs:17-25 | the manager starts with the given status and subscribes to Player events |
| Menu.MyMenuManager.SubscribeToEvents | GDGame/MyGame/Managers/Menu/MyMenuManager.cs:29-35 | the menu subscribes to the Menu category whose pause and play its handler answers |
| Menu.MyMenuManager.HandleEvent | GDGame/MyGame/Managers/Menu/MyMenuManager.cs:27-46 | the new state is `AfterEvent` of the old |
| Menu.MyMenuManager.HandleClickedButton | GDGame/MyGame/Managers/Menu/MyMenuManager.cs:79-118 | the new state and the events logged are those of `Clicked` |
| Menu.MyMenuManager.HandleMouse | GDGame/MyGame/Managers/Menu/MyMenuManager.cs:61-77 | the new state and the events logged are those of `MouseRun` |
| Menu.MyMenuManager.HandleKeyboard | GDGame/MyGame/Managers/Menu/MyMenuManager.cs:120-137 | logs `KeyboardEvents` for the current status |
| Menu.MyMenuManager.HandleInput | GDGame/MyGame/Managers/Menu/MyMenuManager.cs:49-59 | reads the mouse only while updating, then the keyboard |
| MainGame.AsActors | GDGame/Main.cs:810-866 | the loaded actors are added to the object manager one for one, in order |
| MainGame.LevelContent | GDGame/Main.cs:810-923 | only levels 1 and 2 have content |
| MainGame.LoadedPairHasNoDecorator | GDGame/Main.cs:776-777 | no actor the loader makes has the Decorator type |
| MainGame.DemoQueryNeverMatches | GDGame/Main.cs:1444-1454 | the demo's first-match query (Decorator, "cube1") can only match scenery the level adds by hand, and never "Cube1" or a loaded cube |
| MainGame.CameraFor | GDGame/Main.cs:604-609 | level 2 starts on camera 1 and every other level on camera 0 |
| MainGame.AfterInitLevel | GDGame/Main.cs:810-923 | the level is marked loaded, and the object manager holds the level's content when the level is 1 or 2 |
| MainGame.AfterEvent | GDGame/Main.cs:512-532 | a Player win moves to the level in its parameter, marks it not loaded and selects camera 1; nothing else changes the game's fields |
| MainGame.EscapeToggles | GDGame/Main.cs:1425-1438 | Escape flips the pause flag after publishing pause when paused and play when not; two presses restore the flag |
| MainGame.DemoOncePerUnpausedFrame | GDGame/Main.cs:1444-1454 | with the demo block, exactly one first-match request per frame that ends unpaused and none otherwise |
| MainGame.FrameLoadsLevel | GDGame/Main.cs:1539-1543 | every frame ends with the level loaded and reloads only when it was not loaded |
| MainGame.WinThenFrame | GDGame/Main.cs:512-522 | after a win, the next frame has the new level on camera 1 with its content loaded |
| MainGame.EndUnrouted | GDGame/Main.cs:504-510 | nothing subscribes to End events, so the End branch of the game's handler is never reached |
| MainGame.PlayerRouting | GDGame/Main.cs:504-510 | Player events reach the game and then the menu, and not the game-state manager |
| MainGame.UIRouting | GDGame/Main.cs:360-411 | UI events reach the death-count controller before the game-state manager |
| MainGame.SoundRouting | GDGame/Main.cs:633-673 | Sound events reach the sound manager only |
| MainGame.MenuRouting | GDGame/Main.cs:1425-1438 | the pause and play events of Escape and of the menu's M key reach the menu and no other modelled component |
| MainGame.DeathCountShowsTotal | GDGame/Main.cs:360-411 | with the game's routing, a death-count change leaves the shared text showing the running total |
| MainGame.InitComponents | GDGame/Main.cs:360-673 | the components are created sharing one dispatcher and one text object, with the menu shown on "main" and the text "Death Count : 0" |
| MainGame.Game.Initialize | GDGame/Main.cs:246-309 | the game starts unpaused on level 1 with it loaded, on camera 0, with "GameSong" requested and the six subscriptions made in order: the game, the menu and the death-count controller while constructing, then the menu, the sound manager and the game-state manager when the components start |
| MainGame.Game.StartComponents | GDGame/Main.cs:308 | the menu, the sound manager and then the game-state manager subscribe, in the order they were added as components |
| MainGame.Game.InitLevel | GDGame/Main.cs:810-923 | the new state is `AfterInitLevel` of the old one |
| MainGame.Game.InitCameras3D | GDGame/Main.cs:558-611 | the active camera is `CameraFor` of the level |
| MainGame.Game.HandleEvent | GDGame/Main.cs:512-532 | the new state is `AfterEvent` of the old one, and an End game-over sets the menu scene to "end" |
| MainGame.Game.Update | GDGame/Main.cs:1423-1546 | the new state and the events logged are those of `Frame` |

## Left out

- Rendering, audio playback, input devices and the XNA content pipeline. Keys and mouse state are boolean parameters. Instances of a sound effect are values.
- The event dispatcher itself is not part of this model. It is represented by a log of published events and an ordered list of subscriptions. When delivery happens (inside `Publish` or queued to the dispatcher's update) is not modelled; `Events.Receivers` states who receives an event, on the assumption that it is in subscription order.
- Transform3D is not part of this model. `RotateAroundUpBy` is modelled as the exact quarter turn about Y (`Player.TurnAboutUp`), with no floating-point error from the sine and cosine.
- Any subscriptions made by the base classes of the other managers (object, camera, render, UI, keyboard, mouse) are not modelled, since those components are not. Only the menu's own is (`Menu.MyMenuManager.SubscribeToEvents`), and its place among the started components is by the order of `Components.Add` (Main.cs:668-672).
- The `MenuManager`, `PausableDrawableGameComponent`, `ObjectManager`, `CameraManager` and `UITextObject` base classes are not part of this model. Their `base.HandleEvent`, `base.Update`, `SetScene` and `Clear` appear only as their effect on the modelled fields.
- Floating point: positions, speeds and volumes are `real`, with no rounding. The enemy's range check compares squared distances.
- `Player.ApplyInput`, collision detection and the object manager's player lookup are not shown in the source. The detected collidee and the player's position are parameters.
- C# `int` overflow of the loader's count, the death count and the level is not modelled. All of these are unbounded integers.
- Sound.Trim: only ASCII white space is trimmed, not every Unicode white-space character that .NET trims.
- Sound.Cue: the getter of `MinTimeSinceLastPlayedInMs` returns itself and would recurse forever (SoundManager.cs:79). The model only reads the field.
- Sound.SoundManager.SetVolume: the source assigns the volume, unvalidated, to the platform's `SoundEffectInstance.Volume`, which throws for a value outside [0, 1]. The model does not model that exception: it stores the value and reports success.
- Sound.SoundManager.Play2D: a cue's volume, pitch and pan are stored unvalidated by its constructor and copied to the platform instance, whose setters throw out of range. The model copies them without that exception.
- Sound.SoundManager.Play3D: as Play2D, the out-of-range exception of the platform setters is not modelled.
- `LoadSounds` (Main.cs:134-149) is not modelled: it registers the "lose", "win", "buttonClick" and "GameSong" cues from content files. In the model `Game.Initialize` leaves the sound dictionary empty, so the "GameSong" request it publishes finds no registered cue there.
- Menu.MyMenuManager.HandleMouse: iterates over a snapshot of the active scene's elements; changes the handlers make to the list during the loop are not seen.
- Menu.MyMenuManager: `Game.Exit()` is the flag `exitRequested`.
- GameState.MyGameStateManager.EndScreen: private and never called in the source. It is modelled as written.
- MainGame.Game.Initialize: the helper `Init*` methods that add skyboxes, ground, decorators, zones, the player and enemies are represented by the `Scenery` parameter. Their actor lists are not rebuilt.
- MainGame.Game.Update: the demo keys F4-F10 and C, the camera cycle and debug drawing are left out. The first-match request is an `Event` whose query has the predicate's type and ID and the action's new status.
- MainGame.Game.StartComponents: the menu, the sound manager and the game-state manager subscribe when `base.Initialize` starts the components; the menu's subscription is the `MenuManager` base class's, whose source is not part of this model. The model makes that call at the end of `Initialize`, after "GameSong" is published.
- Levels.LevelLoader.Load: the nested `for` loops are split into `LoadRow` (outer body) and `LoadPixel` (inner body). Archetype cloning is represented by the `Archetype` and `TextureKey` tags. The random call is not modelled.
- `CollidableObstacle`, `Collidable obstacle`, `CollidablePickups` and `PlayerController` are context, not core, and are not modelled.

## Notes on the source

- `Initialize` (Main.cs:253-255) sets `levelLoaded = false` and then calls `InitLevel`, which sets it back to true (Main.cs:921). The game therefore starts with the level loaded.
- The text object starts as "Death Count : 0" (Main.cs:363). Both handlers write "Death Count: n", without the space before the colon.
- The comments on Escape say "menu -> game" for the paused branch. The model follows the code: the paused branch publishes OnPause.
- The demo query looks for a Decorator with ID "cube1". The hand-placed decorator is "Cube1", and the loader's cubes are collidable decorators named "cube n", so nothing the game itself adds matches (`MainGame.DemoQueryNeverMatches`).
- Nothing subscribes to End events, so `menuManager.SetScene("end")` in the game's handler is unreachable (`MainGame.EndUnrouted`). The game-state manager hears only UI events, so its OnWin branch is unreachable too (`MainGame.PlayerRouting`).
- In the player's collision response, the Obstacle test follows the pickup/enemy `if` instead of being part of it. A loaded blue pixel is a `CollidableObstacle`, not an `Obstacle`, so that branch does not fire for loaded actors.
