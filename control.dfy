/**
 * The controls menu: rebinding an action's input, with conflict detection against the other
 * actions, replace and cancel on a conflict, reset to the defaults, and saving the input map
 * into the game configuration.
 */
module Control {
  import opened Wrappers

  /** A rebindable action, by its position in the action enum (which is also the map's iteration order). */
  type ControlAction = nat

  /** A physical input, by kind and code. */
  datatype InputKind = Keyboard(key: nat) | Mouse(button: nat) | GamepadButton(gamepadButton: nat)

  /** The control input map: for each action, in action order, its bound inputs. */
  type InputMap = seq<seq<InputKind>>

  // ---------------------------------------------------------------------------
  // The input map's operations

  /**
   * `insert_at(input, action, index)`: bind `input` to `action` in slot `index` (replacing
   * what is there, or appending when the slot does not exist yet), unless it is bound already.
   */
  function InsertAt(m: InputMap, input: InputKind, action: ControlAction, index: nat): (r: InputMap)
    requires action < |m|
    ensures |r| == |m|
    ensures input in r[action]
    ensures forall a :: 0 <= a < |m| && a != action ==> r[a] == m[a]
    ensures input in m[action] ==> r == m
    ensures forall x :: x in r[action] ==> x in m[action] || x == input
    ensures input !in m[action] && index < |m[action]| ==> r[action] == m[action][index := input]
    ensures input !in m[action] && index >= |m[action]| ==> r[action] == m[action] + [input]
  {
    var inputs := m[action];
    if input in inputs then m
    else if index < |inputs| then
      assert inputs[index := input][index] == input;
      m[action := inputs[index := input]]
    else m[action := inputs + [input]]
  }

  /** The inputs of `s` other than `input`, in order. */
  function Without(s: seq<InputKind>, input: InputKind): (r: seq<InputKind>)
    ensures forall x :: x in r <==> x in s && x != input
    decreases |s|
  {
    if s == [] then []
    else (if s[0] == input then [] else [s[0]]) + Without(s[1..], input)
  }

  /** `remove(action, input)`: unbind `input` from `action` only. */
  function Remove(m: InputMap, action: ControlAction, input: InputKind): (r: InputMap)
    requires action < |m|
    ensures |r| == |m|
    ensures input !in r[action]
    ensures forall x :: x in r[action] <==> x in m[action] && x != input
    ensures forall a :: 0 <= a < |m| && a != action ==> r[a] == m[a]
  {
    m[action := Without(m[action], input)]
  }

  /** An input map that binds nothing at all. */
  predicate IsEmpty(m: InputMap) {
    forall a :: 0 <= a < |m| ==> m[a] == []
  }

  /**
   * The conflict search of the binding window: the first action in action order, other than
   * `active`, that already has `input`. Bindings of `active` itself never conflict.
   */
  function FindConflict(m: InputMap, active: ControlAction, input: InputKind): (r: Option<ControlAction>)
    ensures r.Some? ==> r.value < |m| && r.value != active && input in m[r.value]
    ensures r.Some? ==> forall b :: 0 <= b < r.value && b != active ==> input !in m[b]
    ensures r.None? <==> forall b :: 0 <= b < |m| && b != active ==> input !in m[b]
    decreases |m|
  {
    if m == [] then None
    else
      match FindConflict(m[..|m| - 1], active, input)
      case Some(a) => Some(a)
      case None => if |m| - 1 != active && input in m[|m| - 1] then Some(|m| - 1) else None
  }

  /** No input is bound to two different actions. */
  ghost predicate UniqueBindings(m: InputMap) {
    forall a, b, x :: 0 <= a < |m| && 0 <= b < |m| && a != b && x in m[a] ==> x !in m[b]
  }

  /** Binding an input no other action has keeps every input bound to at most one action. */
  lemma InsertKeepsUnique(m: InputMap, input: InputKind, action: ControlAction, index: nat)
    requires action < |m| && UniqueBindings(m)
    requires FindConflict(m, action, input).None?
    ensures UniqueBindings(InsertAt(m, input, action, index))
  {
    var r := InsertAt(m, input, action, index);
    forall a, b, x | 0 <= a < |r| && 0 <= b < |r| && a != b && x in r[a]
      ensures x !in r[b]
    {
      if a == action {
        assert x in m[action] || x == input;
      } else if b == action {
        assert x in m[a];
        assert x != input;
      }
    }
  }

  /**
   * Replacing a conflict moves the input from the conflicting action to the active one, and
   * keeps every input bound to at most one action.
   */
  lemma ReplaceKeepsUnique(m: InputMap, input: InputKind, active: ControlAction, index: nat)
    requires active < |m| && UniqueBindings(m)
    requires FindConflict(m, active, input).Some?
    ensures var c := FindConflict(m, active, input).value;
      var r := InsertAt(Remove(m, c, input), input, active, index);
      && UniqueBindings(r) && input in r[active] && input !in r[c]
  {
    var c := FindConflict(m, active, input).value;
    var removed := Remove(m, c, input);
    assert UniqueBindings(removed) by {
      forall a, b, x | 0 <= a < |removed| && 0 <= b < |removed| && a != b && x in removed[a]
        ensures x !in removed[b]
      {
        assert x in m[a];
      }
    }
    assert FindConflict(removed, active, input).None? by {
      forall b | 0 <= b < |removed| && b != active
        ensures input !in removed[b]
      {
        assert b != c ==> input !in m[b];
      }
    }
    InsertKeepsUnique(removed, input, active, index);
  }

  // ---------------------------------------------------------------------------
  // Reading the next input

  datatype KeyboardInput = KeyboardInput(pressed: bool, keyCode: Option<nat>)
  datatype MouseButtonInput = MouseButtonInput(pressed: bool, button: nat)
  datatype GamepadEvent = ButtonChanged(button: nat, strength: real) | OtherGamepadEvent

  /**
   * `input_button`: looking only at the first pending event of each reader, a pressed key with
   * a key code comes first, then a pressed mouse button, then a gamepad button change of
   * strength at most 0.5.
   */
  function InputButton(keys: seq<KeyboardInput>, mouse: seq<MouseButtonInput>, gamepad: seq<GamepadEvent>): (r: Option<InputKind>)
    ensures KeyTaken(keys) ==> r == Some(Keyboard(keys[0].keyCode.value))
    ensures !KeyTaken(keys) && MouseTaken(mouse) ==> r == Some(Mouse(mouse[0].button))
    ensures !KeyTaken(keys) && !MouseTaken(mouse) && GamepadTaken(gamepad) ==> r == Some(GamepadButton(gamepad[0].button))
    ensures r.None? <==> !KeyTaken(keys) && !MouseTaken(mouse) && !GamepadTaken(gamepad)
  {
    if keys != [] && keys[0].pressed && keys[0].keyCode.Some? then Some(Keyboard(keys[0].keyCode.value))
    else if mouse != [] && mouse[0].pressed then Some(Mouse(mouse[0].button))
    else if gamepad != [] && gamepad[0].ButtonChanged? && gamepad[0].strength <= 0.5 then Some(GamepadButton(gamepad[0].button))
    else None
  }

  predicate KeyTaken(keys: seq<KeyboardInput>) {
    |keys| > 0 && keys[0].pressed && keys[0].keyCode.Some?
  }

  predicate MouseTaken(mouse: seq<MouseButtonInput>) {
    |mouse| > 0 && mouse[0].pressed
  }

  predicate GamepadTaken(gamepad: seq<GamepadEvent>) {
    |gamepad| > 0 && gamepad[0].ButtonChanged? && gamepad[0].strength <= 0.5
  }

  /** A later event never overrides the first: the first key press wins whatever follows it. */
  lemma FirstKeyWins(k: KeyboardInput, rest: seq<KeyboardInput>, mouse: seq<MouseButtonInput>, gamepad: seq<GamepadEvent>)
    requires k.pressed && k.keyCode.Some?
    ensures InputButton([k] + rest, mouse, gamepad) == Some(Keyboard(k.keyCode.value))
  {
  }

  // ---------------------------------------------------------------------------
  // The controls menu state

  datatype BindingState = NoBinding | Conflict
  datatype MenuState = Controls | OtherMenu

  datatype BindingConflict = BindingConflict(action: ControlAction, inputButton: InputKind)

  /** The slot being rebound, and the conflict found for it, if any. */
  datatype ActiveBinding = ActiveBinding(action: ControlAction, index: nat, conflict: Option<BindingConflict>)

  /**
   * The resources the controls menu works on: the live input map, the game configuration
   * (absent until loaded), the active binding, the binding state, and the commands issued.
   */
  class ControlMenu {
    const actionCount: nat
    var inputMap: InputMap
    var config: Option<InputMap>
    var activeBinding: Option<ActiveBinding>
    var bindingState: BindingState
    /** The last menu transition requested. */
    var nextMenu: Option<MenuState>
    /** The last binding-state transition requested. */
    var nextBinding: Option<BindingState>
    /** How many configuration save events were sent. */
    var configSaveEvents: nat

    /** Every map and every binding refers to the actions there are. */
    predicate Valid()
      reads this
    {
      && |inputMap| == actionCount
      && (config.Some? ==> |config.value| == actionCount)
      && (activeBinding.Some? ==> activeBinding.value.action < actionCount)
      && (activeBinding.Some? && activeBinding.value.conflict.Some? ==> activeBinding.value.conflict.value.action < actionCount)
    }

    constructor(actionCount: nat, config: Option<InputMap>)
      requires config.Some? ==> |config.value| == actionCount
      ensures this.actionCount == actionCount && this.config == config && Valid()
      ensures inputMap == seq(actionCount, _ => []) && activeBinding == None && bindingState == NoBinding
      ensures nextMenu == None && nextBinding == None && configSaveEvents == 0
    {
      this.actionCount := actionCount;
      this.config := config;
      inputMap := seq(actionCount, _ => []);
      activeBinding := None;
      bindingState := NoBinding;
      nextMenu := None;
      nextBinding := None;
      configSaveEvents := 0;
    }

    /** `save_input_map`: copy the live map into the configuration and ask for it to be saved. */
    method SaveInputMap()
      requires Valid()
      modifies this
      ensures Valid()
      ensures config == Some(inputMap) && configSaveEvents == old(configSaveEvents) + 1
      ensures inputMap == old(inputMap) && activeBinding == old(activeBinding) && bindingState == old(bindingState)
      ensures nextMenu == old(nextMenu) && nextBinding == old(nextBinding)
    {
      config := Some(inputMap);
      configSaveEvents := configSaveEvents + 1;
    }

    /** `BindingButton::show_popup`: start rebinding slot `index` of `action`. */
    method ShowPopup(action: ControlAction, index: nat)
      requires Valid() && action < actionCount
      modifies this
      ensures Valid()
      ensures activeBinding == Some(ActiveBinding(action, index, None))
      ensures inputMap == old(inputMap) && config == old(config) && bindingState == old(bindingState)
      ensures nextMenu == old(nextMenu) && nextBinding == old(nextBinding) && configSaveEvents == old(configSaveEvents)
    {
      activeBinding := Some(ActiveBinding(action, index, None));
    }

    /**
     * `binding_window_system`. Nothing happens without an active binding. Esc cancels it and
     * goes back to the controls menu. A recorded conflict only moves to the Conflict state.
     * Otherwise the next input either records a conflict with another action, leaving the
     * map alone, or is bound and ends the binding; either way the map is saved once.
     */
    method BindingWindow(escJustPressed: bool, keys: seq<KeyboardInput>, mouse: seq<MouseButtonInput>, gamepad: seq<GamepadEvent>)
      requires Valid() && config.Some?
      modifies this
      ensures Valid()
      ensures bindingState == old(bindingState)
      ensures old(activeBinding).None? ==>
        inputMap == old(inputMap) && config == old(config) && activeBinding == None &&
        nextMenu == old(nextMenu) && nextBinding == old(nextBinding) && configSaveEvents == old(configSaveEvents)
      ensures old(activeBinding).Some? && escJustPressed ==>
        inputMap == old(inputMap) && config == old(config) && activeBinding == None &&
        nextMenu == Some(Controls) && nextBinding == old(nextBinding) && configSaveEvents == old(configSaveEvents)
      ensures old(activeBinding).Some? && !escJustPressed && old(activeBinding).value.conflict.Some? ==>
        inputMap == old(inputMap) && config == old(config) && activeBinding == old(activeBinding) &&
        nextMenu == old(nextMenu) && configSaveEvents == old(configSaveEvents) &&
        nextBinding == (if old(bindingState) != Conflict then Some(Conflict) else old(nextBinding))
      ensures old(activeBinding).Some? && !escJustPressed && old(activeBinding).value.conflict.None? &&
              InputButton(keys, mouse, gamepad).None? ==>
        inputMap == old(inputMap) && config == old(config) && activeBinding == old(activeBinding) &&
        nextMenu == old(nextMenu) && nextBinding == old(nextBinding) && configSaveEvents == old(configSaveEvents)
      ensures old(activeBinding).Some? && !escJustPressed && old(activeBinding).value.conflict.None? &&
              InputButton(keys, mouse, gamepad).Some? ==>
        var ab := old(activeBinding).value;
        var input := InputButton(keys, mouse, gamepad).value;
        && config == Some(inputMap) && configSaveEvents == old(configSaveEvents) + 1
        && nextBinding == old(nextBinding)
        && match FindConflict(old(inputMap), ab.action, input)
           case Some(c) =>
             inputMap == old(inputMap) && nextMenu == old(nextMenu) &&
             activeBinding == Some(ab.(conflict := Some(BindingConflict(c, input))))
           case None =>
             inputMap == InsertAt(old(inputMap), input, ab.action, ab.index) &&
             activeBinding == None && nextMenu == Some(Controls)
    {
      if activeBinding.None? {
        return;
      }
      var ab := activeBinding.value;
      if escJustPressed {
        activeBinding := None;
        nextMenu := Some(Controls);
      } else if ab.conflict.Some? {
        if bindingState != Conflict {
          nextBinding := Some(Conflict);
        }
      } else {
        var input := InputButton(keys, mouse, gamepad);
        if input.Some? {
          var conflictAction := FindConflict(inputMap, ab.action, input.value);
          if conflictAction.Some? {
            activeBinding := Some(ab.(conflict := Some(BindingConflict(conflictAction.value, input.value))));
          } else {
            inputMap := InsertAt(inputMap, input.value, ab.action, ab.index);
            activeBinding := None;
            nextMenu := Some(Controls);
          }
          SaveInputMap();
        }
      }
    }

    /**
     * `ReplaceConflictButton::on_click`: the conflicting action loses the input, the active
     * slot gets it and the binding ends. The binding state always returns to NoBinding.
     * The map is not saved here (see `ReplaceAndSave`).
     */
    method Replace()
      requires Valid()
      modifies this
      ensures Valid()
      ensures old(activeBinding).Some? && old(activeBinding).value.conflict.Some? ==>
        var ab := old(activeBinding).value;
        var c := ab.conflict.value;
        inputMap == InsertAt(Remove(old(inputMap), c.action, c.inputButton), c.inputButton, ab.action, ab.index) &&
        activeBinding == None
      ensures !(old(activeBinding).Some? && old(activeBinding).value.conflict.Some?) ==>
        inputMap == old(inputMap) && activeBinding == old(activeBinding)
      ensures nextBinding == Some(NoBinding)
      ensures config == old(config) && configSaveEvents == old(configSaveEvents)
      ensures bindingState == old(bindingState) && nextMenu == old(nextMenu)
    {
      if activeBinding.Some? && activeBinding.value.conflict.Some? {
        var ab := activeBinding.value;
        var c := ab.conflict.value;
        inputMap := Remove(inputMap, c.action, c.inputButton);
        inputMap := InsertAt(inputMap, c.inputButton, ab.action, ab.index);
        activeBinding := None;
      }
      nextBinding := Some(NoBinding);
    }

    /** `Replace` followed by saving the map, as the binding window does after every change. */
    method ReplaceAndSave()
      requires Valid() && config.Some?
      modifies this
      ensures Valid()
      ensures old(activeBinding).Some? && old(activeBinding).value.conflict.Some? ==>
        var ab := old(activeBinding).value;
        var c := ab.conflict.value;
        && inputMap == InsertAt(Remove(old(inputMap), c.action, c.inputButton), c.inputButton, ab.action, ab.index)
        && activeBinding == None
        && config == Some(inputMap) && configSaveEvents == old(configSaveEvents) + 1
      ensures !(old(activeBinding).Some? && old(activeBinding).value.conflict.Some?) ==>
        inputMap == old(inputMap) && activeBinding == old(activeBinding) &&
        config == old(config) && configSaveEvents == old(configSaveEvents)
      ensures nextBinding == Some(NoBinding)
      ensures bindingState == old(bindingState) && nextMenu == old(nextMenu)
    {
      var replaced := activeBinding.Some? && activeBinding.value.conflict.Some?;
      Replace();
      if replaced {
        SaveInputMap();
      }
    }

    /** `CancelConflictButton::on_click`: drop the binding, back to NoBinding, map untouched. */
    method Cancel()
      requires Valid()
      modifies this
      ensures Valid()
      ensures activeBinding == None && nextBinding == Some(NoBinding)
      ensures inputMap == old(inputMap) && config == old(config) && configSaveEvents == old(configSaveEvents)
      ensures bindingState == old(bindingState) && nextMenu == old(nextMenu)
    {
      activeBinding := None;
      nextBinding := Some(NoBinding);
    }

    /** `ResetButton::reset_inputs`: with a configuration, restore and save the defaults; without one, nothing. */
    method ResetInputs(defaults: InputMap)
      requires Valid() && |defaults| == actionCount
      modifies this
      ensures Valid()
      ensures old(config).Some? ==>
        inputMap == defaults && config == Some(defaults) && configSaveEvents == old(configSaveEvents) + 1 &&
        nextMenu == Some(Controls)
      ensures old(config).None? ==>
        inputMap == old(inputMap) && config == None && configSaveEvents == old(configSaveEvents) && nextMenu == old(nextMenu)
      ensures activeBinding == old(activeBinding) && bindingState == old(bindingState) && nextBinding == old(nextBinding)
    {
      if config.Some? {
        inputMap := defaults;
        SaveInputMap();
        nextMenu := Some(Controls);
      }
    }

    /** `control_menu` on entering the controls menu: an empty map is replaced by the defaults. */
    method OpenMenu(defaults: InputMap)
      requires Valid() && |defaults| == actionCount
      modifies this
      ensures Valid()
      ensures inputMap == if IsEmpty(old(inputMap)) then defaults else old(inputMap)
      ensures config == old(config) && activeBinding == old(activeBinding) && bindingState == old(bindingState)
      ensures nextMenu == old(nextMenu) && nextBinding == old(nextBinding) && configSaveEvents == old(configSaveEvents)
    {
      if IsEmpty(inputMap) {
        inputMap := defaults;
      }
    }

    /** `load_control_input_map`: a changed configuration replaces the live map. */
    method LoadControlInputMap(configChanged: bool)
      requires Valid()
      modifies this
      ensures Valid()
      ensures inputMap == if old(config).Some? && configChanged then old(config).value else old(inputMap)
      ensures config == old(config) && activeBinding == old(activeBinding) && bindingState == old(bindingState)
      ensures nextMenu == old(nextMenu) && nextBinding == old(nextBinding) && configSaveEvents == old(configSaveEvents)
    {
      if config.Some? && configChanged {
        inputMap := config.value;
      }
    }

    /** `cleanup` on leaving the controls menu. */
    method Cleanup()
      requires Valid()
      modifies this
      ensures Valid()
      ensures activeBinding == None && nextBinding == Some(NoBinding)
      ensures inputMap == old(inputMap) && config == old(config) && bindingState == old(bindingState)
      ensures nextMenu == old(nextMenu) && configSaveEvents == old(configSaveEvents)
    {
      activeBinding := None;
      nextBinding := Some(NoBinding);
    }
  }

  /**
   * After a replace, the game configuration as written still holds the input on the
   * conflicting action: with one action bound to a key and another rebinding it, a replace
   * leaves the saved map different from the live one.
   */
  method ReplaceLeavesConfigStale() returns (live: InputMap, saved: InputMap)
    ensures live != saved
    ensures saved == [[Keyboard(1)], []] && live == [[], [Keyboard(1)]]
  {
    var menu := new ControlMenu(2, Some([[Keyboard(1)], []]));
    menu.inputMap := [[Keyboard(1)], []];
    menu.ShowPopup(1, 0);
    menu.BindingWindow(false, [KeyboardInput(true, Some(1))], [], []);
    assert FindConflict([[Keyboard(1)], []], 1, Keyboard(1)) == Some(0);
    menu.Replace();
    assert Remove([[Keyboard(1)], []], 0, Keyboard(1)) == [[], []];
    var cleared: InputMap := [[], []];
    var rebound: InputMap := [[], [Keyboard(1)]];
    assert cleared[1] + [Keyboard(1)] == rebound[1];
    assert cleared[1 := cleared[1] + [Keyboard(1)]] == rebound;
    live, saved := menu.inputMap, menu.config.value;
  }
}
