# Screens demo — a Dafny model

This project models the logic of a small browser demo built on a 2D scene-graph engine. The demo consists of:

- a screen manager that keeps a registry of named screens and shows one of them at a time;
- a menu of three buttons;
- a card-stack shuffle;
- a dialogue renderer that lays out text with inline emoji placeholders;
- a flame made of recycled animated particles.

The engine itself is not modelled. That covers scene graph, textures, text measurement, tweening and timers. Where the demo reads a value from the engine, the model takes it as a parameter:

- text widths and heights;
- button heights;
- the window size;
- random numbers;
- a particle's per-frame displacement.

Modules, one per source file of the core:

- `Common`: `Option` and `Distinct`.
- `Enums`: the screen identifiers and the card-stack record.
- `Components`: the base screen, whose no-op hooks count their calls in ghost counters, and the button.
- `Manager`: the screen manager, a class over the registry map, the current screen and the stage's child list.
- `AceOfShadows`: the card screen. Cards are values; the two stacks and the in-flight slot are fields of the screen class.
- `DialogueText`: splitting a message on `{name}` placeholders, the placeholder test and `trim`.
- `MagicWords`: the speaker and emoji maps, the run layout and the avatar/name alignment of one message, the dialogue render loop and the resize relayout.
- `Menu`: the vertical centring of the buttons, and `init`, which replaces the button list.
- `PhoenixFlame`: frame slicing, particle configuration, pool membership, the per-frame update with recycling, and resize.

The shuffle is driven by a tween and timers. It is modelled as two explicit steps:

- `BeginMove` pops the top card and aims it.
- `CompleteMove` lands the card and pushes it.

`ShuffleCards` runs these steps to the end.

Particle activation timers are recorded as `Activation` values. `AnimateParticle` is the callback they would run.

## Model

| member | source | states |
|---|---|---|
| `Manager.Without` | src/ScreenManager.ts:18 | `removeChild`: the result holds every element of the list except the removed one, and nothing else; it stays duplicate-free |
| `Manager.AddChild` | src/ScreenManager.ts:23 | `addChild`: the child ends up last, every earlier child stays, nothing new besides it; duplicate-freedom is kept |
| `Manager.SwitchKeepsOnlyCurrentAttached` | src/ScreenManager.ts:16-26 | a switch keeps "the current screen is on the stage and no other registered screen is", and the previous screen is detached when it is not the target |
| `Manager.RegisterKeepsOnlyCurrentAttached` | src/ScreenManager.ts:12-14 | registering a screen that is not on the stage (or is current) keeps the attachment invariant |
| `Manager.ScreenManager.constructor` | src/ScreenManager.ts:7-10 | no current screen, empty registry, the given stage; a stage holding each child once satisfies the invariant |
| `Manager.ScreenManager.RegisterScreen` | src/ScreenManager.ts:12-14 | the registry gets `name := screen`, overwriting an earlier entry; other entries, the current screen and the stage are unchanged |
| `Manager.ScreenManager.SwitchScreen` | src/ScreenManager.ts:16-26 | the registry is unchanged. The current screen becomes the registered one, or none. The stage is the old stage without the old screen, plus the new one at the end. The target's `init` count grows by exactly one and no other screen's changes. The invariant is kept |
| `Manager.ScreenManager.Update` | src/ScreenManager.ts:28-32 | only the current screen's update count grows; nothing happens without a current screen |
| `Manager.ScreenManager.OnResize` | src/ScreenManager.ts:34-38 | only the current screen's resize count grows; nothing happens without a current screen |
| `Components.Screen.Init` | src/components/Screen.ts:19-21 | the base hook does nothing but record the call |
| `Components.Screen.Update` | src/components/Screen.ts:23-25 | the base hook does nothing but record the call |
| `Components.Screen.OnResize` | src/components/Screen.ts:27-29 | the base hook does nothing but record the call |
| `Components.Button.constructor` | src/components/Button.ts:9-33 | a button keeps its title and click target; its position starts at the origin |
| `AceOfShadows.TransferAllOrder` | src/screens/AceOfShadowsScreen.ts:74-117 | running the shuffle to the end leaves stack two with its old cards followed by stack one's cards in reverse (pop) order, anchor unchanged |
| `AceOfShadows.TransferAllPlaces` | src/screens/AceOfShadowsScreen.ts:79-103 | the k-th card on stack two lands at `(two.x, two.y - 2k)` with rotation 0 and stacking order k; cards already there are untouched |
| `AceOfShadows.TransferAllLaidOut` | src/screens/AceOfShadowsScreen.ts:51-58 | landing uses the resize formula, so a laid-out stack two stays laid out through a whole shuffle |
| `AceOfShadows.SnapCards` | src/screens/AceOfShadowsScreen.ts:51-58 | the forEach relayout: card i moves to `(x, y - 2i)`, nothing else about it changes |
| `AceOfShadows.AceOfShadowsScreen.constructor` | src/screens/AceOfShadowsScreen.ts:8-9 | stack one anchored at (100, 500), stack two at (300, 500), both empty |
| `AceOfShadows.AceOfShadowsScreen.CreateStackOfCards` | src/screens/AceOfShadowsScreen.ts:61-72 | appends exactly 144 cards without clearing; card i of the batch is at `(x, y - 2i)` with zIndex i; each becomes a child |
| `AceOfShadows.AceOfShadowsScreen.BeginMove` | src/screens/AceOfShadowsScreen.ts:75-89 | on an empty stack one nothing changes and no move follows; otherwise the last card is popped and aimed at `(two.x, two.y - 2·|two|)`, computed before the push; the card count is kept |
| `AceOfShadows.AceOfShadowsScreen.CompleteMove` | src/screens/AceOfShadowsScreen.ts:99-112 | the card lands with rotation 0 and is pushed on stack two; another move follows iff stack one is non-empty; the card count is kept |
| `AceOfShadows.AceOfShadowsScreen.ShuffleCards` | src/screens/AceOfShadowsScreen.ts:74-118 | the whole chain of moves empties stack one and leaves stack two as the transfer of all its cards |
| `AceOfShadows.AceOfShadowsScreen.UpdateStackPositions` | src/screens/AceOfShadowsScreen.ts:38-59 | anchors go to `(0.25W, 0.8H)` and `(0.75W, 0.8H)`; every card snaps to its slot; contents and order of both stacks are unchanged |
| `AceOfShadows.AceOfShadowsScreen.OnResize` | src/screens/AceOfShadowsScreen.ts:31-36 | a resize is that relayout: new anchors, same number of cards, card i of each stack moved to `(x, y - 2i)` with every other field kept |
| `DialogueText.CloseFrom` | src/screens/MagicWordsScreen.ts:161 | the first `}` at or after a position, or the end |
| `DialogueText.MatchAt` | src/screens/MagicWordsScreen.ts:161 | a match of `\{[^}]+\}` found at a position is a placeholder token |
| `DialogueText.MatchAtIsToken` | src/screens/MagicWordsScreen.ts:161 | the match at a position is exactly the token starting there, both directions |
| `DialogueText.Split` | src/screens/MagicWordsScreen.ts:161 | `split` with a capturing group yields an odd number of parts |
| `DialogueText.SplitConcat` | src/screens/MagicWordsScreen.ts:161 | the parts concatenate back to the message |
| `DialogueText.SplitParts` | src/screens/MagicWordsScreen.ts:161 | odd parts are exactly placeholder tokens; even parts contain no placeholder at all |
| `DialogueText.SplitLeftmostAt` | src/screens/MagicWordsScreen.ts:161 | the split takes the leftmost match: no match of the expression starts inside a text part, and each separator is exactly the match at its start |
| `DialogueText.TokenIsPlaceholder` | src/screens/MagicWordsScreen.ts:167 | every separator passes the renderer's starts-with-`{`, ends-with-`}` test |
| `DialogueText.PlainPlaceholderStartsEmpty` | src/screens/MagicWordsScreen.ts:167 | a placeholder-free text passes the placeholder test only if it starts with `{}` |
| `DialogueText.EmptyBracesReadAsPlaceholder` | src/screens/MagicWordsScreen.ts:161-169 | literal `{}` is not split off, yet the renderer reads it as a placeholder with empty name |
| `DialogueText.TrimStart` | src/screens/MagicWordsScreen.ts:169 | removes exactly the leading white space |
| `DialogueText.TrimEnd` | src/screens/MagicWordsScreen.ts:169 | removes exactly the trailing white space |
| `DialogueText.Trim` | src/screens/MagicWordsScreen.ts:169 | the result starts and ends with non-white-space |
| `DialogueText.TrimRemovesOnlyWhiteSpace` | src/screens/MagicWordsScreen.ts:169 | the trimmed name is the middle of the input between two white-space runs |
| `DialogueText.TrimIdempotent` | src/screens/MagicWordsScreen.ts:169 | trimming twice is trimming once |
| `DialogueText.EmojiName` | src/screens/MagicWordsScreen.ts:169 | the emoji name is no longer than the text between the braces |
| `MagicWords.MapOfLastWins` | src/screens/MagicWordsScreen.ts:106-114 | a name is a key iff some entry carries it, and its value is that of the last such entry |
| `MagicWords.FillMap` | src/screens/MagicWordsScreen.ts:106-114 | the forEach of `set` calls adds the entries to the map in order |
| `MagicWords.SplitClassified` | src/screens/MagicWordsScreen.ts:161-187 | on a split message, every separator part is read as an emoji or dropped, never as text; a text part is read as a placeholder only when it starts with `{}` |
| `MagicWords.LayoutHead` | src/screens/MagicWordsScreen.ts:166-187 | one step of the run layout: an emoji emits a 24×24 image and advances by 34; a dropped part emits nothing and keeps the offset; a text part emits a label and advances by width + 10 |
| `MagicWords.ReflowLayout` | src/screens/MagicWordsScreen.ts:69-85 | reflowing laid-out runs from any start gives what laying them out from there gives |
| `MagicWords.ReflowIdempotent` | src/screens/MagicWordsScreen.ts:69-85 | a second reflow from the same start changes nothing |
| `MagicWords.RenderMessageShape` | src/screens/MagicWordsScreen.ts:116-194 | the container is at y. A speaker without an avatar gives an empty container. Otherwise the avatar is at `W - 74` (right) or 10, and the name at `avatar.x - nameWidth - 10` (right) or `avatar.x + 74` |
| `MagicWords.RenderAllShape` | src/screens/MagicWordsScreen.ts:116-200 | one container per message, in order; message k's is at `50 + 84k` and is empty exactly when its speaker has no avatar |
| `MagicWords.RelayoutRender` | src/screens/MagicWordsScreen.ts:43-93 | relaying out a rendered container at any width gives what rendering at that width gives |
| `MagicWords.RenderedBoxShape` | src/screens/MagicWordsScreen.ts:116-197 | a rendered container never has exactly one child |
| `MagicWords.LayoutParts` | src/screens/MagicWordsScreen.ts:163-188 | the forEach over the parts with its running x offset computes the layout |
| `MagicWords.ReflowChildren` | src/screens/MagicWordsScreen.ts:69-85 | the resize loop over children 2.. computes the reflow |
| `MagicWords.MagicWordsScreen.constructor` | src/screens/MagicWordsScreen.ts:9-14 | empty speaker map, empty dialogue container at the origin |
| `MagicWords.MagicWordsScreen.RenderMessageBox` | src/screens/MagicWordsScreen.ts:116-194 | one container is built as specified by `RenderMessage`, running the parts loop |
| `MagicWords.MagicWordsScreen.RenderDialogue` | src/screens/MagicWordsScreen.ts:101-202 | speakers are added to the kept map and emojis to a fresh one, last entry wins; the rendered containers of all messages are appended in order |
| `MagicWords.MagicWordsScreen.RelayoutMessageBox` | src/screens/MagicWordsScreen.ts:42-92 | one container is relaid out as specified by `RelayoutBox` |
| `MagicWords.MagicWordsScreen.OnResize` | src/screens/MagicWordsScreen.ts:34-93 | the dialogue container goes to (50, 50); every message container is relaid out in place, none added or removed |
| `Menu.TotalHeightBounds` | src/screens/MenuScreen.ts:49 | the summed height of buttons of non-negative height is non-negative and at least the height of each button |
| `Menu.ButtonYStep` | src/screens/MenuScreen.ts:53-59 | the first button is at `(H - Σh - (n-1)·20) / 2`, and `y[i+1] = y[i] + h[i] + 20` |
| `Menu.CenteredGap` | src/screens/MenuScreen.ts:49-59 | the gap above the first button equals the gap below the last: `y[0] = H - (y[n-1] + h[n-1])` |
| `Menu.MenuScreen.constructor` | src/screens/MenuScreen.ts:7-14 | no buttons, no children |
| `Menu.MenuScreen.Init` | src/screens/MenuScreen.ts:16-32 | the button list becomes exactly three new buttons selecting AceOfShadows, MagicWords and PhoenixFlame. They are appended to the children without removing earlier ones, then positioned |
| `Menu.MenuScreen.PositionButtons` | src/screens/MenuScreen.ts:43-61 | every button is at x = W/2 and at its column y; only button positions change |
| `Menu.MenuScreen.PositionedColumn` | src/screens/MenuScreen.ts:53-59 | in a positioned column consecutive buttons are one height and 20 apart, and the column is vertically centred |
| `Menu.MenuScreen.OnResize` | src/screens/MenuScreen.ts:38-41 | repositions the same buttons; the button list and the children are unchanged |
| `PhoenixFlame.CreateFrames` | src/screens/PhoenixFlameScreen.ts:38-53 | exactly 4 frames, frame i is `(128i, 0, 128, 128)` |
| `PhoenixFlame.GetParticleConfig` | src/screens/PhoenixFlameScreen.ts:55-63 | scale in [2, 2.25), alpha in [0.7, 1), x = 0.5W, y in [0.6H, 0.6H + 10), speed 0.5 |
| `PhoenixFlame.ConfigRangesReached` | src/screens/PhoenixFlameScreen.ts:55-63 | those ranges are exact: every value in them is produced by some random draws |
| `PhoenixFlame.Advance` | src/screens/PhoenixFlameScreen.ts:96-125 | an inactive particle is unchanged. An active one moves, and its alpha drops by exactly `0.01·dt`. If it is then spent (alpha ≤ 0 or y < 0), it is recycled into the configured ranges at x = 0.5W |
| `PhoenixFlame.AdvanceKeepsSane` | src/screens/PhoenixFlameScreen.ts:113-124 | a frame keeps scale in [2, 2.25), alpha strictly between 0 and 1, and y ≥ 0 (x and how far down y goes are not bounded) |
| `PhoenixFlame.ConfigIsSane` | src/screens/PhoenixFlameScreen.ts:55-75 | a freshly configured particle is in that state |
| `PhoenixFlame.Particle.constructor` | src/screens/PhoenixFlameScreen.ts:65-75 | the sprite takes the configuration's values and starts inactive |
| `PhoenixFlame.Particle.Play` | src/screens/PhoenixFlameScreen.ts:81 | the sprite is playing |
| `PhoenixFlame.PhoenixFlameScreen.constructor` | src/screens/PhoenixFlameScreen.ts:14-25 | empty pool, empty container, nothing scheduled |
| `PhoenixFlame.PhoenixFlameScreen.CreateParticles` | src/screens/PhoenixFlameScreen.ts:77-90 | adds 10 new inactive playing particles to the container. Only indices 1..9 join the pool, appended without clearing it, so the first never does. Particle i is scheduled after 200·i ms. Pool sanity is kept |
| `PhoenixFlame.PhoenixFlameScreen.AnimateParticle` | src/screens/PhoenixFlameScreen.ts:135-137 | the particle becomes active |
| `PhoenixFlame.PhoenixFlameScreen.UpdateParticlePosition` | src/screens/PhoenixFlameScreen.ts:106-111 | the particle drifts by the given displacement |
| `PhoenixFlame.PhoenixFlameScreen.UpdateParticleAlpha` | src/screens/PhoenixFlameScreen.ts:113-115 | alpha drops by `0.01·dt` |
| `PhoenixFlame.PhoenixFlameScreen.CheckAndResetParticle` | src/screens/PhoenixFlameScreen.ts:117-125 | a spent particle gets a fresh position, alpha and scale; any other is untouched |
| `PhoenixFlame.PhoenixFlameScreen.UpdateParticles` | src/screens/PhoenixFlameScreen.ts:92-104 | every pool particle advances by one frame with its own motion; inactive ones are unchanged; no playing flag changes; pool sanity is kept |
| `PhoenixFlame.PhoenixFlameScreen.OnResize` | src/screens/PhoenixFlameScreen.ts:127-133 | every pool particle moves to `(0.5W, 0.75H)`; its alpha, scale, activation and playing flag are unchanged; particles outside the pool are untouched |

## Left out

- Screen dispatch: the manager calls the base `Components.Screen` hooks. Without traits, its calls are not dispatched to the concrete screens' overrides. Each concrete screen's hooks are modelled on its own class.
- `src/main.ts` is not part of this model: bootstrap, DOM mounting, fullscreen, ticker and resize wiring are browser and engine I/O.
- Button drawing, hover colours and pointer events are left out. A button is its title, its click target and a height given by the engine.
- The network fetch and JSON decoding of the dialogue, `Assets.load`, texture construction and the avatar fallback-texture handler are foreign I/O. The dialogue arrives as a `Dialogue` value.
- MagicWords `init` also attaches the dialogue container to the global stage. That stage is outside this screen's state and is not modelled.
- Text widths and heights come from the engine as `Metrics`. An engine that rounds or re-measures is not modelled: a width read back during resize is the width the label was given.
- MagicWords.RelayoutBox: a container with exactly one child would make the source's `getChildAt(1)` fail. The model leaves such a container unchanged. Rendering never builds one (see `RenderedBoxShape`).
- MagicWords.RelayoutBox: the source looks the speaker up by the second child's text. The model also requires that child to be a label.
- Tween interpolation, easing, progress and the zIndex change halfway through a move are not modelled: a move is its start and its completion. A landed card's zIndex is the target stack's length before the push.
- Timers and the un-awaited async `init` are left out. The shuffle's continuation and the particle activations are explicit steps. A second shuffle chain, started by re-activating the card screen while one is running, is excluded: `BeginMove` requires no card in flight.
- Math.random, Math.sin and Math.cos are inputs. Random numbers are given as `Draws`, and the per-frame displacement as `Motion` with deltaTime already applied. Floating-point rounding is not modelled: all arithmetic is on exact reals.
- Animation frame playback and the texture behind each frame rectangle are left out.
- The `update` hooks of the menu, card and dialogue screens are no-ops in the source and have no model of their own.
