# Palimpsest processor: value layer and per-frame session logic

This project models two pieces of a small terminal game. In the game, the player drags instruction cards onto a 32-slot playfield.

- `common.dfy`: module `Common`. It models `common/src/lib.rs`:
  - registers, immediate operands and instructions, with the text each renders as;
  - the decoding of an integer to a register;
  - the seeded starting playfield;
  - the character-cell geometry types `Point`, `Size` and `Rect`;
  - the immediate-mode UI context, with its hot, active and next-hot slots;
  - the instruction card.
- `game.dfy`: module `Game`. It models `game/src/lib.rs`:
  - the hand layout;
  - the topmost-card hit test;
  - the scroll clamp;
  - which address each row of the playfield column shows;
  - the per-frame event dispatch of `update_and_render`.
- `wrappers.dfy`: the `Option` type.

Rust's `i32` and `u8` are the newtypes `int32` and `uint8`. Where the Rust code would panic, the model uses a precondition instead. These cases are:
- an `i32` overflow;
- a failed `assert!` in `Point::new`, `Size::new` or `Rect::from_points`.

The source updates some state in place, and the model keeps that shape:
- The UI context is the class `UIContext`, whose methods write its fields.
- The session is the class `GameState`. Its fields are the three parts of the source's `Game` struct that the dispatch touches: `scrollOffset`, `cards` and `selectedCard`.
- `UpdateAndRender` loops over the events and returns early on a quit request. On a resize it rewrites each card's row in place, one card at a time.
- Its contract ties the new state and the quit flag to `Run`. `Run` is a function over the value `Session`, and the lemmas in `game.dfy` state what a frame does.

The row-by-row loop of `draw_instructions` is `DrawInstructions`. Instead of printing each row, it returns the row's classification.

`get_instructions` fills a local array and returns it as a sequence.

## Model

| member | source | states |
|---|---|---|
| Common.SaturatingAdd | game/src/lib.rs:54-56 | The exact sum when it fits in `i32`; otherwise `i32::MAX` or `i32::MIN`, whichever bound was passed |
| Common.RegisterIndex | common/src/lib.rs:49-60 | Each register's declaration-order discriminant, below `REGISTER_AMOUNT` |
| Common.ToRegister | common/src/lib.rs:35-47 | `Some` exactly for 0..=7, and then the register whose discriminant is `n`; `None` otherwise |
| Common.ToRegisterRoundTrip | common/src/lib.rs:35-60 | Decoding a register's discriminant gives that register back |
| Common.RegisterFromDraw | common/src/lib.rs:71-84 | A draw below 8 selects the register of that index; a draw of 7 or more selects `H` |
| Common.DrawnRegistersAreFirstFour | common/src/lib.rs:69-84 | With draws from `0..REGISTER_VARIATION_COUNT`, only A, B, C and D can be drawn |
| Common.InstructionFromDraw | common/src/lib.rs:169-184 | A draw below 8 selects the variant with that index, and 8 or more selects `NOP`; data-register variants take the drawn data and first register, register-register variants take both drawn registers |
| Common.RegisterText | common/src/lib.rs:63-67 | A register renders as one letter, 'A' plus its discriminant |
| Common.DataText | common/src/lib.rs:192-198 | An immediate renders as `0x` and two upper-case hex digits, four characters in all, and the digits read back to its value |
| Common.DataTextExample | common/src/lib.rs:192-198 | 10 renders as `0x0A`, and 255 as `0xFF` |
| Common.InstructionText | common/src/lib.rs:150-167 | `NOP` renders as `NOP`. Every other variant renders as its mnemonic (`load`, `add `, `sub `, `JZ `, `JNZ `, `JRZ`, `JRNZ`), a space, the first operand, a space and the second operand |
| Common.ParseRegisterText | common/src/lib.rs:63-67 | A register can be read back from its letter |
| Common.ParseDataText | common/src/lib.rs:192-198 | An immediate can be read back from its `0xHH` rendering |
| Common.ParseInstructionText | common/src/lib.rs:150-167 | Every instruction can be read back from its rendering |
| Common.InstructionTextInjective | common/src/lib.rs:137-167 | Two instructions render the same exactly when they are equal |
| Common.GetInstructions | common/src/lib.rs:212-225 | 32 slots. Slot 2 holds `Load(2, A)`, slot 4 `Load(4, B)`, slot 8 `Load(8, C)` and slot 16 `Load(16, D)`. Every other slot holds `NOP` |
| Common.NewPoint | common/src/lib.rs:257-265 | Requires both coordinates to be non-negative, and keeps them |
| Common.NewSafe | common/src/lib.rs:227-234 | The result is non-negative. A non-negative coordinate is kept and a negative one becomes 0 |
| Common.PointAdd | common/src/lib.rs:236-238 | The offset point under the same rule as `new_safe`: each sum is kept when non-negative and becomes 0 otherwise. Requires the sums to fit in `i32` |
| Common.NewSize | common/src/lib.rs:275-286 | Requires a non-negative width and height, and keeps them |
| Common.FromSize | common/src/lib.rs:309-335 | `topLeft` is the origin. The corners are `(x+w, y)`, `(x, y+h)` and `(x+w, y+h)`, and the size is kept. Requires the origin and the far corner to be non-negative and to fit in `i32` |
| Common.FromPoints | common/src/lib.rs:337-356 | Requires a non-negative `topLeft`, because `from_size` passes it to `Point::new`, and `bottomRight >= topLeft` on both axes. The two given corners are kept, the size is their difference, and the other two corners are consistent with them |
| Common.FromValues | common/src/lib.rs:358-371 | Equals `FromSize(Point(x, y), Size(width, height))` |
| Common.FromPointValues | common/src/lib.rs:374-391 | Equals `FromPoints` of the two corners it is given |
| Common.FromSizeFromPoints | common/src/lib.rs:323-356 | Rebuilding a rectangle from its top-left and bottom-right corners gives the same rectangle back |
| Common.UIContext.constructor | common/src/lib.rs:86-90 | The three slots hold the given identities |
| Common.UIContext.SetNotActive | common/src/lib.rs:93-95 | `active` becomes 0; `hot` and `nextHot` are unchanged |
| Common.UIContext.SetActive | common/src/lib.rs:96-98 | `active` becomes `id`; the other two slots are unchanged |
| Common.UIContext.SetNextHot | common/src/lib.rs:99-101 | `nextHot` becomes `id`; the other two slots are unchanged |
| Common.UIContext.SetNotHot | common/src/lib.rs:102-104 | `hot` becomes 0; the other two slots are unchanged |
| Common.UIContext.FrameInit | common/src/lib.rs:105-110 | `hot` takes the old `nextHot` only when `active` was 0, and is unchanged otherwise. `nextHot` is 0 afterwards, and `active` never changes |
| Common.NewCard | common/src/lib.rs:128-135 | Requires a non-negative location. The card sits at `(x, y)` and holds the given instructions |
| Game.HandHeight | game/src/lib.rs:42-46 | The hand row lies 8 rows above the viewport height |
| Game.MakeHand | game/src/lib.rs:26-40 | One card per list, in order. Card `i` sits at `x = 12 + 12*i`, `y = height - 8`, and holds list `i` unchanged. Requires `height >= 8` for `Point::new` when there is at least one list, and the running offset to fit in `i32` |
| Game.WithHandRow | game/src/lib.rs:69-73 | Every card is moved onto the given row. The number of cards, their columns and their instructions stay the same |
| Game.InCard | game/src/lib.rs:211-213 | The mouse is in a card exactly when its offset from the card's top-left corner is at least 0 and below 16 across and at least 0 and below 12 down |
| Game.TopmostCardAt | game/src/lib.rs:205-219 | `Some(i)` only when `i` is a card index, `p` is in card `i`'s half-open box `[x, x+16) x [y, y+12)`, and no higher-index card contains `p`. `None` exactly when no card contains `p` |
| Game.ClickedCard | game/src/lib.rs:205-219 | The downward scan with early return yields exactly the topmost card under the mouse |
| Game.Clamp | game/src/lib.rs:162-174 | When `min <= max`, the result lies in `[min, max]`. An input already in range is returned unchanged. `min` is tested first |
| Game.ClampScrollOffset | game/src/lib.rs:176-181 | For `height >= 1` the result lies in `[-(height-1), 31]`, and an offset already in that range is returned unchanged |
| Game.ClampScrollOffsetIdempotent | game/src/lib.rs:176-181 | Clamping twice gives the same result as clamping once (for `height >= 1`) |
| Game.ClampScrollOffsetExamples | game/src/lib.rs:176-181 | For height 30, an offset of 100 gives 31 and -1000 gives -29 |
| Game.RowAt | game/src/lib.rs:183-203 | Row `y` shows address `y + ClampScrollOffset(height, offset)`. It is an instruction row exactly when that address is in `[0, 32)`, the top border exactly when it is -1, and the bottom border exactly when it is 32 |
| Game.DrawInstructions | game/src/lib.rs:183-203 | One classification per row of the viewport (none when `height <= 0`), each equal to `RowAt` for that row |
| Game.SomeInstructionVisible | game/src/lib.rs:176-203 | Whatever the scroll offset, a viewport at least one row tall shows at least one instruction |
| Game.RowsShowDistinctAddresses | game/src/lib.rs:190-192 | No playfield address is shown on two rows |
| Game.GameState.constructor | common/src/lib.rs:18-31 | The session holds the given offset, hand and selection |
| Game.GameState.UpdateAndRender | game/src/lib.rs:48-83 | The new session and the quit flag are `Run` of the old session over the events |
| Game.Step | game/src/lib.rs:53-77 | One event's dispatch. Its own contract says that the card count never changes, that only a resize touches the hand, that only scroll, `Up` and `Down` touch the offset, and that only mouse presses touch the selection. It requires a resize's `height - 8` to fit in `i32` only when the hand has cards, since the source computes it once per card. `ScrollSaturates`, `SelectionEvents`, `ResizeRelaysHand` and `UnmatchedEventsIgnored` state each arm's exact effect |
| Game.Run | game/src/lib.rs:50-78 | A frame's event batch, applied in order until the first quit request. Its own contract says that the card count is kept and that a false flag means no event of the batch asked to quit. `RunQuitsIffQuitEvent`, `RunStopsAtFirstQuit`, `RunKeepsHand` and `RunKeepsSelectionInHand` state the rest |
| Game.ScrollSaturates | game/src/lib.rs:54-56 | `MouseScroll{delta}` saturates the offset by `delta`, `Up` by -1 and `Down` by +1. The hand and the selection are unchanged |
| Game.SelectionEvents | game/src/lib.rs:57-62 | A left press selects `TopmostCardAt` of the hand at the mouse, which is the card `clicked_card` finds: the highest-index card under the mouse, or `None` only when no card is under it. A right press clears the selection. The hand and the offset are unchanged |
| Game.ResizeRelaysHand | game/src/lib.rs:69-73 | Every card's row becomes `height - 8`. Columns, instructions, the card count, the offset and the selection are unchanged |
| Game.UnmatchedEventsIgnored | game/src/lib.rs:76 | An event that no arm matches leaves the session unchanged |
| Game.RunQuitsIffQuitEvent | game/src/lib.rs:50-83 | The frame returns true exactly when the batch holds a `Close` event or an `Escape` press |
| Game.RunStopsAtFirstQuit | game/src/lib.rs:74-75 | At the first quit request the frame returns true. The session is what the earlier events made it, and later events are not applied |
| Game.RunKeepsHand | game/src/lib.rs:50-83 | A frame keeps the number of cards, their order, their columns and their instructions. The hand is unchanged unless the batch contains a resize |
| Game.RunKeepsSelectionInHand | game/src/lib.rs:57-62 | If the selection names a card of the hand before a frame, it still does after the frame |

## Left out

- `Platform` and all output are left out. This covers the callback struct and the `draw`, `draw_card`, `draw_card_at` and `draw_rect` functions. It also covers the `{:#04X}│…` text that `draw_instructions` prints. All of it is terminal I/O. The model keeps only which row shows which address.
- The mouse position (`platform.mouse_position`), the viewport height (`platform.size`) and the event batch come from the host. They are parameters of the modelled operations.
- `src/main.rs` is left out. It is the bear_lib_terminal host loop.
- The random number generator and the `Rand` impls are left out. They are calls into the `rand` crate. Only the maps from a drawn number to a register or an instruction variant are modelled.
- `new_game` is left out. It uses an undefined `Value` and builds a `Game` with only four of the struct's twelve fields, so the code is not coherent.
- `GameState` leaves out nine fields of `Game`: `instructions`, `playfield_right_edge`, `ui_context`, `run_button_spec`, `paused`, `executing_address`, `instruction_countdown`, `registers` and `rng`. The dispatch never reads or writes them. No code in these files executes instructions or counts down ticks, so the model has no execution semantics.
- `KeyCode` and `Event` keep only the keys and the variants the dispatch matches. Each gets one catch-all case. The `ctrl` and `shift` flags are kept, though the dispatch ignores them.
- `Color`, `ButtonSpec` and the `Display` impl of `Size` are data with no part in the dispatch, so they are left out.
- `#[no_mangle]` only matters for hot reloading a dynamic library, so it is left out.
- Game.InCard: the box test is evaluated on unbounded integers. In the source, `location.x + CARD_WIDTH` and `location.y + CARD_HEIGHT` are `i32` additions. `make_hand` with a height above `i32::MAX - 4`, or a resize to such a height, puts cards within 12 rows of `i32::MAX`. The source then panics when the mouse is in a card's columns on or below its row; the model returns a hit-test result instead.
- Common.PointAdd and Common.FromSize: an `i32` overflow in the source panics. The model requires the sums to fit instead of modelling the panic.
