# Synfig: the Dynamic value node and the main window's menu labels

This project models two pieces of the Synfig animation suite in Dafny.

**The Dynamic value node** (`ValueNodeDynamic`, file `valuenode_dynamic.dfy`)
is a vector-valued node of the animation graph. It models a tip hung from a
moving origin by a radial spring and a torsion spring. Its value at an
animation time comes from integrating the oscillator from the last time the
node was asked. Between calls the node keeps two things:
- the polar state `[radius, radius', angle, angle']`;
- the last evaluated time.

Each call takes one of three paths:
- replay the initial conditions at time 0;
- rewind to time 0 and integrate from there;
- integrate forward from the last time.

The model is the class `DynamicNode`:
- its nine typed links are fields, its state is a four-element array, and its
  methods update both in place;
- `Evaluate` is proved against the pure specification function `Eval`, and
  the lemmas about `Eval` and `Replay` (a run of successive calls) state what
  the node promises over time;
- `ResetState`, the constructor and `Create` are proved against the rest
  state `InitialState` and the constant-link predicates;
- `SetLink` is proved against the slot typing `Accepts` and against `GetLink`.

The numerics are parameters of the node, gathered in the datatype `Numerics`:
vector magnitude, angle, polar-to-Cartesian conversion, and the adaptive ODE
integrator together with its oscillator.

**The main window's menu labels** (`StudioMainWindow`, file `mainwindow.dfy`)
cover four things:
- The loop that doubles every `_` in a file or panel name, so that GTK does
  not read it as a mnemonic marker. `QuoteUnderscores` is the loop;
  `Quoted` is its specification.
- The `file-recent-N` action names and the UI description strings built for
  the recent-files menu and the window menu.
- The toolbar and menubar visibility toggles on the `MainWindow` class, with
  the application settings they write.
- The window's initial bar visibility.

`wrappers.dfy` holds the `Option` and `Result` datatypes.

## Model

| member | source | states |
|---|---|---|
| ValueNodeDynamic.DynamicNode.constructor | synfig-core/src/synfig/valuenode_dynamic.cpp:55-88 | The links are exactly `DefaultLinks(seed)`: tip = the seed; origin = force = (0,0); damping = friction = 0.1; spring = torsion = mass = inertia = 1.0. Two nodes built from the same seed and numerics therefore hold equal links and evaluate alike. The node evaluates with the given numerics. The state array is fresh, has length 4 and holds the rest state at time 0. The last time is 0, the derivative link is the zero constant, and the vocabulary is cached. |
| ValueNodeDynamic.DynamicNode.Create | synfig-core/src/synfig/valuenode_dynamic.cpp:70-77 | Construction succeeds exactly when the seed is a vector. Any other seed fails with `BadType` of the seed's type. On success the node is valid and evaluates with the given numerics. Its last time is 0 and its tip link is the constant seed. Its links are exactly `DefaultLinks(seed)`, its derivative link and vocabulary have the constructor's defaults, and its state is the rest state at 0. |
| ValueNodeDynamic.DefaultLinks | synfig-core/src/synfig/valuenode_dynamic.cpp:60-73 | The default link table holds the constant seed in the tip slot and constant (0,0) in origin and force. It holds constant 0.1 in damping and friction, and constant 1.0 in spring, torsion, mass and inertia. |
| ValueNodeDynamic.CheckType | synfig-core/src/synfig/valuenode_dynamic.cpp:169-174 | A type passes exactly when the tip slot, which takes the node's own type, demands the same type as the origin slot, which takes vectors. `Create` succeeds exactly when it holds of the seed's type. |
| ValueNodeDynamic.DynamicNode.ResetState | synfig-core/src/synfig/valuenode_dynamic.cpp:90-97 | The state becomes `[mag(tip(t) - origin(t)), 0, angle(tip(t) - origin(t)), 0]`. The last time is not touched. |
| ValueNodeDynamic.InitialState | synfig-core/src/synfig/valuenode_dynamic.cpp:93-96 | Both derivative components of the reset state are 0. |
| ValueNodeDynamic.DynamicNode.Evaluate | synfig-core/src/synfig/valuenode_dynamic.cpp:115-154 | The returned value, the new state and the new last time are exactly those of `Eval` on the old memory. The links and vocabulary are unchanged; the graph-wide retargeting done by `replace` is not modelled. The origin-derivative link is retargeted to the origin on every path except the zero replay. |
| ValueNodeDynamic.Eval | synfig-core/src/synfig/valuenode_dynamic.cpp:120-153 | After any call the last time is `t`. The result is `origin(t) + polar(state[0], state[2])` of the new state. |
| ValueNodeDynamic.ZeroReplayIsIdempotent | synfig-core/src/synfig/valuenode_dynamic.cpp:124-128 | At `t == lastTime == 0` the call ignores the cached state. It leaves the reset state and last time 0 behind, and calling again gives the same result. |
| ValueNodeDynamic.RewindIsFreshEvaluation | synfig-core/src/synfig/valuenode_dynamic.cpp:130-135 | When `t < lastTime`, `lastTime > 0` and `t != 0`, the call takes the rewind path. It returns exactly what a node freshly reset at time 0 returns. |
| ValueNodeDynamic.RewindToZero | synfig-core/src/synfig/valuenode_dynamic.cpp:130-137 | A rewind to exactly 0 takes the rewind path. It matches a fresh node's replay at 0 when the integrator does nothing on the empty interval [0, 0]. |
| ValueNodeDynamic.RewindToZeroIntegratesEmptyInterval | synfig-core/src/synfig/valuenode_dynamic.cpp:130-151 | With no assumption on the integrator, a call at exactly 0 after a positive last time resets. It then integrates the reset state over [0, 0] with step hint 0, and leaves last time 0. |
| ValueNodeDynamic.NegativeTimeIntegratesBackward | synfig-core/src/synfig/valuenode_dynamic.cpp:124-145 | With last time 0 and `t < 0`, neither reset branch fires. The integrator runs from 0 to `t` with step `t/4`. |
| ValueNodeDynamic.ForwardPathCases | synfig-core/src/synfig/valuenode_dynamic.cpp:124-137 | The integrating path without a reset is taken exactly when `t > lastTime`, or `t == lastTime != 0`, or `t < lastTime <= 0`. |
| ValueNodeDynamic.ForwardIntegratesCachedState | synfig-core/src/synfig/valuenode_dynamic.cpp:137-151 | In each of those three cases the new state is the integrator's output on the cached state over [lastTime, t], with step hint `(t - lastTime)/4`. |
| ValueNodeDynamic.SameFrameReintegrates | synfig-core/src/synfig/valuenode_dynamic.cpp:124-145 | A second call at the same non-zero time does not return a cached result. It integrates again over [t, t] with step hint 0. |
| ValueNodeDynamic.ZeroReplayRestsAtTip | synfig-core/src/synfig/valuenode_dynamic.cpp:124-128 | If the polar conversion inverts magnitude and angle, a call at time 0 on a node that has not advanced returns the tip's static position at 0. With the constructor's `num` and last time 0, this covers a fresh node's first call at 0. |
| ValueNodeDynamic.Replay | synfig-core/src/synfig/valuenode_dynamic.cpp:115-154 | Defines a run of calls as `Run` with `Eval` as the step: successive calls, each from the memory the previous call left. Its contract gives only the length: one evaluation per requested time. The lemmas below state what a run does. |
| ValueNodeDynamic.ReplayTracksTime | synfig-core/src/synfig/valuenode_dynamic.cpp:150 | After each call of a run, the remembered time is that call's time. |
| ValueNodeDynamic.ReplayConcat | synfig-core/src/synfig/valuenode_dynamic.cpp:120-151 | The node's behaviour depends only on its memory between calls. Running `ts1 + ts2` is running `ts1`, then `ts2` from the memory `ts1` left. |
| ValueNodeDynamic.RunConcat | synfig-core/src/synfig/valuenode_dynamic.cpp:120-151 | For any step function over the memory, running `ts1 + ts2` is running `ts1`, then `ts2` from the memory `ts1` left. `ReplayConcat` is this for the node's own call. |
| ValueNodeDynamic.RewindForgetsHistory | synfig-core/src/synfig/valuenode_dynamic.cpp:130-135 | After any run ending at a positive time, a call at an earlier non-zero time returns what a freshly reset node returns at that time. |
| ValueNodeDynamic.PlaybackIntegratesEachFrame | synfig-core/src/synfig/valuenode_dynamic.cpp:137-151 | During forward playback (strictly increasing times after the last one), no call resets. Each call integrates the previous call's state over the interval since that call. |
| ValueNodeDynamic.AcceptedTypes | synfig-core/src/synfig/valuenode_dynamic.cpp:181-193 | Slot 0 accepts exactly the node's own type, slots 1-2 exactly vectors and slots 3-8 exactly reals. Any other index accepts nothing. |
| ValueNodeDynamic.DynamicNode.SetLink | synfig-core/src/synfig/valuenode_dynamic.cpp:176-194 | The result is true exactly when the slot accepts the handle's type. On success only slot `i` changes, and reading it back gives the handle. On failure no link changes. The memory is untouched, and every link keeps its slot's type. |
| ValueNodeDynamic.DynamicNode.GetLink | synfig-core/src/synfig/valuenode_dynamic.cpp:196-215 | Slots 0-8 return the handle stored in that slot, in link order. Any other index returns null. |
| ValueNodeDynamic.ChildrenVocab | synfig-core/src/synfig/valuenode_dynamic.cpp:217-261 | A non-empty cache is returned as it is. Otherwise the result has nine entries named tip_static, origin, force, damping, friction, spring, torsion, mass, inertia, in that order. |
| ValueNodeDynamic.ParamNamesDistinct | synfig-core/src/synfig/valuenode_dynamic.cpp:224-259 | No two parameters share a machine name. |
| ValueNodeDynamic.ConstVector | synfig-core/src/synfig/valuenode_dynamic.cpp:60-61 | A constant vector node yields its vector at every time. |
| ValueNodeDynamic.ConstReal | synfig-core/src/synfig/valuenode_dynamic.cpp:62-67 | A constant real node yields its real at every time. |
| StudioMainWindow.Find | synfig-studio/src/gui/mainwindow.cpp:294 | The result is the first index at or after `from` holding `c`, or none when no such index exists. |
| StudioMainWindow.QuoteUnderscores | synfig-studio/src/gui/mainwindow.cpp:289-296 | The loop's output is `Quoted(raw)`: every `_` becomes `__`, and all other characters are kept in order. |
| StudioMainWindow.QuoteThroughUnderscore | synfig-studio/src/gui/mainwindow.cpp:294-295 | One loop round: copying the segment up to and including the next `_`, then one more `_`, extends the quoted prefix to that `_`. |
| StudioMainWindow.QuoteRest | synfig-studio/src/gui/mainwindow.cpp:296 | The tail after the last `_` is copied unchanged. |
| StudioMainWindow.QuotedLength | synfig-studio/src/gui/mainwindow.cpp:294-296 | The quoted length is the input length plus the number of `_` in the input. |
| StudioMainWindow.QuotedWithoutUnderscore | synfig-studio/src/gui/mainwindow.cpp:294-296 | A name without `_` is returned unchanged. |
| StudioMainWindow.QuotedAppend | synfig-studio/src/gui/mainwindow.cpp:294-296 | Quoting distributes over concatenation. |
| StudioMainWindow.DisplayedQuoted | synfig-studio/src/gui/mainwindow.cpp:293 | A quoted name is shown exactly as the original name when mnemonics are rendered. |
| StudioMainWindow.QuotedInjective | synfig-studio/src/gui/mainwindow.cpp:294-296 | Distinct names have distinct quoted labels. |
| StudioMainWindow.DisplayedNoLonger | synfig-studio/src/gui/mainwindow.cpp:293 | Mnemonic rendering never makes a label longer. |
| StudioMainWindow.UnquotedNameLosesUnderscore | synfig-studio/src/gui/mainwindow.cpp:293 | Any unquoted name with an `_` before its last character is shown shorter than itself, so it is not shown as it is. |
| StudioMainWindow.DecimalString | synfig-studio/src/gui/mainwindow.cpp:298 | The `%d` rendering of a non-negative index is non-empty and made of digits only. It starts with `0` exactly when the index is 0, so there are no leading zeros. |
| StudioMainWindow.ParseDecimalString | synfig-studio/src/gui/mainwindow.cpp:298 | Reading the decimal rendering back gives the index. |
| StudioMainWindow.RecentActionNamesDistinct | synfig-studio/src/gui/mainwindow.cpp:298 | Different indices give different `file-recent-N` action names. |
| StudioMainWindow.OnRecentFilesChanged | synfig-studio/src/gui/mainwindow.cpp:280-318 | There is one action per recent file, in list order. The k-th is named `file-recent-k`, is labelled with the quoted basename and opens the k-th path. The popup and menubar UI strings wrap the concatenated menu items. |
| StudioMainWindow.OnDockableRegistered | synfig-studio/src/gui/mainwindow.cpp:320-347 | The panel action is named `panel-<name>` and labelled with the quoted local name, so the quoting is the same as for recent files. The popup and menubar UI strings reference that action. |
| StudioMainWindow.AppSettings.constructor | synfig-studio/src/gui/mainwindow.cpp:74-75 | The settings hold the given toolbar and menubar flags. |
| StudioMainWindow.MainWindow.constructor | synfig-studio/src/gui/mainwindow.cpp:71-121 | The toggle flags are copied from the settings. Taking both bars to start visible, a bar is shown exactly when its setting enables it. |
| StudioMainWindow.MainWindow.ToggleShowToolbar | synfig-studio/src/gui/mainwindow.cpp:242-258 | The toolbar flag flips, so two calls restore it. The toolbar's visibility and the application setting both equal the new flag. The menubar's flag, visibility and setting are unchanged. |
| StudioMainWindow.MainWindow.ToggleShowMenubar | synfig-studio/src/gui/mainwindow.cpp:261-277 | The menubar flag flips, so two calls restore it. The menubar's visibility and the application setting both equal the new flag. The toolbar's flag, visibility and setting are unchanged. |

## Left out

- The oscillator's equations of motion and the adaptive odeint integrator are an uninterpreted `integrate` in `Numerics`. The oscillator is declared in a header that is not part of this model. The integrator's step count, only logged, is not modelled.
- Floating point: `Vector::mag`, the vector angle and `Angle::rad` are uninterpreted functions over `real`. Vectors are pairs of reals.
- Zero mass or zero inertia: the code does not check for either, so the model adds no check. Any error policy for them would be invented.
- The `SYNFIG_DEBUG_VALUENODE_OPERATORS` trace and the `synfig::info` logging are output only.
- The `origin_d_` derivative node and its `replace` call are graph plumbing. The model records only which link the derivative follows (`derivativeOf`): the zero constant after construction, the origin after every integrating call.
- DynamicNode.Evaluate: `replace` re-points every handle to the derivative's old target, anywhere in the graph. That includes this node's own slots when they share that node, for example `tip_static` after the origin was relinked. This graph-wide retargeting is not modelled, so `Evaluate` promises that the node's links are unchanged.
- `unlink_all`, handle reference counting, the destructor and the `LinkableValueNode` class hierarchy are not part of this model. Links are modelled as values.
- `ValueNode_Dynamic`'s own `link_count` is not in the source file. The model fixes the count at nine, as the nine slots of `set_link_vfunc` imply.
- DynamicNode.SetLink: the type-check-and-set macro is defined in a header that is not part of this model. It is modelled as "store and return true when the handle's type equals the slot's type, else return false". The macro's special handling of placeholder nodes is not modelled.
- DynamicNode.SetLink and DynamicNode.GetLink: the debug `assert` on the index range is not modelled. An out-of-range index returns false or null, as the release build's `switch` does.
- `create_new`, `get_name` and `get_local_name` are not modelled: they are a stateless factory and two constant strings. The `_()` translation of labels and descriptions is the identity.
- In the constructor, `set_link` by name goes through the vocabulary lookup in the base class. The model assigns the fields directly.
- The main window's GTK plumbing is not modelled: widget construction, action groups, `UIManager` merges, signal connections, `save_all`, `init_menus` and the `CanvasView` merge ids.
- `basename` is a parameter of `OnRecentFilesChanged`. Binding `App::open` to a path is modelled as storing the path in the action.
- StudioMainWindow.Displayed is an assumed model of how GTK renders mnemonic labels: `__` shows as `_`, and `_x` shows as `x`. GTK itself is not part of this model.
- MainWindow.ToggleShowToolbar and MainWindow.ToggleShowMenubar: looking up the bar widget, and the null-pointer dereference when it is missing, are not modelled.
- MainWindow.constructor: a missing menubar or toolbar widget, which the source would dereference, is not modelled.
- MainWindow.constructor: both bars are assumed visible before the constructor hides the disabled ones. The source never shows them itself, and their initial visibility comes from the GTK `UIManager`, which is not part of this model.
- StudioMainWindow.OnRecentFilesChanged: the `int` index is unbounded in the model. Overflow beyond 2^31 recent files is not modelled.
