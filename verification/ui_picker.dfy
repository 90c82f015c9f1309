/** The device picker of the terminal front end (ui/ui.go): a state machine
    over four screens driven by key presses, the result of the device fetch
    and the list item the user chooses. The list and spinner widgets are
    opaque; a message handed to one is recorded as a `Delegate` effect. */
module Picker {
  import opened Wrappers
  import opened DeviceItems

  /** The Go `state` type: an `int` with iota constants. */
  newtype State = int
  const StateMenu: State := 0
  const StateLoading: State := 1
  const StateFailure: State := 2
  const StateDevice: State := 3

  /** The widgets a message can be handed to. */
  datatype Component = MainMenu | DeviceList | Spinner

  /** What a transition asks of the outside world. */
  datatype Effect =
    | Quit
    | Delegate(target: Component)
    | SetItems(items: seq<ListItem>)
    | StartFetch                     // `go m.fetchDevices()`
    | OpenSsh(hostname: string)      // the blocking `sshDevice` session

  /** The picker's own state: the screen, the last error, and the items last
      handed to the device list. */
  datatype Model = Model(state: State, err: Option<string>, deviceItems: seq<ListItem>)

  /** A transition's result. */
  datatype Step = Step(model: Model, effects: seq<Effect>)

  /** The result of fetching the devices; both fields may be set. */
  datatype DevicesResult = DevicesResult(devices: seq<Device>, err: Option<string>)

  /** The model `New` starts the program with. */
  function Initial(): (r: Model)
    ensures r.state == StateMenu && r.err.None? && r.deviceItems == []
  {
    Model(StateMenu, None, [])
  }

  predicate IsQuitKey(key: string)
  {
    key == "ctrl+c" || key == "q"
  }

  /** `handleKeyPress`: quit keys quit from every screen; other keys go to the
      main menu or the device list when that is on screen, and nowhere
      otherwise. The model itself never changes. */
  function HandleKeyPress(m: Model, key: string): (r: Step)
    ensures r.model == m
    ensures IsQuitKey(key) ==> r.effects == [Quit]
    ensures !IsQuitKey(key) ==> Quit !in r.effects
    ensures !IsQuitKey(key) ==>
      && (Delegate(MainMenu) in r.effects <==> m.state == StateMenu)
      && (Delegate(DeviceList) in r.effects <==> m.state == StateDevice)
      && (r.effects == [] <==> m.state != StateMenu && m.state != StateDevice)
      && |r.effects| <= 1
  {
    if IsQuitKey(key) then Step(m, [Quit])
    else if m.state == StateMenu then Step(m, [Delegate(MainMenu)])
    else if m.state == StateDevice then Step(m, [Delegate(DeviceList)])
    else Step(m, [])
  }

  /** `handleResult`: an error moves to the failure screen and keeps the
      device list; otherwise the tagged devices become the device list and
      the device screen is shown. */
  function HandleResult(m: Model, res: DevicesResult): (r: Step)
    ensures res.err.Some? ==>
      r.model.state == StateFailure && r.model.err == res.err
      && r.model.deviceItems == m.deviceItems && r.effects == []
    ensures res.err.None? ==>
      r.model.state == StateDevice && r.model.err == m.err
      && r.model.deviceItems == FilterItems(res.devices)
      && r.effects == [SetItems(r.model.deviceItems)]
  {
    if res.err.Some? then Step(m.(state := StateFailure, err := res.err), [])
    else
      var items := FilterItems(res.devices);
      Step(m.(state := StateDevice, deviceItems := items), [SetItems(items)])
  }

  /** `handleDefault`: a message of no other kind goes to the widget of the
      current screen, if it has one. */
  function HandleDefault(m: Model): (r: Step)
    ensures r.model == m && |r.effects| <= 1
    ensures m.state == StateMenu ==> r.effects == [Delegate(MainMenu)]
    ensures m.state == StateDevice ==> r.effects == [Delegate(DeviceList)]
    ensures r.effects == [] <==> m.state != StateMenu && m.state != StateDevice && m.state != StateLoading
    ensures Delegate(Spinner) in r.effects <==> m.state == StateLoading
  {
    if m.state == StateMenu then Step(m, [Delegate(MainMenu)])
    else if m.state == StateDevice then Step(m, [Delegate(DeviceList)])
    else if m.state == StateLoading then Step(m, [Delegate(Spinner)])
    else Step(m, [])
  }

  /** `handleAction`: choosing the SSH menu entry starts the fetch and shows
      the loading screen; choosing a device runs an SSH session to it
      (`sshErr` is how that ends) and returns to the menu, or to the failure
      screen if the session failed; other actions do nothing. */
  function HandleAction(m: Model, item: ListItem, sshErr: Option<string>): (r: Step)
    ensures item.action == ActionSSH ==> r.model == m.(state := StateLoading) && r.effects == [StartFetch]
    ensures item.action == ActionDeviceSSH ==>
      |r.effects| >= 1 && r.effects[0] == OpenSsh(item.name)
      && (sshErr.Some? ==> r.model == m.(state := StateFailure, err := sshErr))
      && (sshErr.Some? ==> r.effects == [OpenSsh(item.name)])
      && (sshErr.None? ==> r.model == m.(state := StateMenu))
      && (sshErr.None? ==> r.effects == [OpenSsh(item.name), Delegate(MainMenu)])
    ensures item.action != ActionSSH && item.action != ActionDeviceSSH ==> r == Step(m, [])
  {
    if item.action == ActionSSH then Step(m.(state := StateLoading), [StartFetch])
    else if item.action == ActionDeviceSSH then
      match sshErr
      case Some(_) => Step(m.(state := StateFailure, err := sshErr), [OpenSsh(item.name)])
      case None =>
        // `m.Update(nil)` reaches `handleDefault` on the menu screen
        var back := m.(state := StateMenu);
        Step(back, [OpenSsh(item.name)] + HandleDefault(back).effects)
    else Step(m, [])
  }

  /** What `View` renders. `Blank` is the empty string; `NilErrorPanic` is
      the failure screen reached with a nil error, where the source would
      call `Error` on nil. */
  datatype Screen =
    | MenuScreen
    | LoadingScreen(caption: string)
    | DeviceScreen
    | FailureScreen(text: string)
    | NilErrorPanic
    | Blank

  /** `View`: the screen is chosen by the state alone. */
  function View(m: Model): (r: Screen)
    ensures m.state == StateMenu ==> r == MenuScreen
    ensures m.state == StateLoading ==> r == LoadingScreen(" Fetching Devices...")
    ensures m.state == StateDevice ==> r == DeviceScreen
    ensures r.Blank? <==> !(StateMenu <= m.state <= StateDevice)
    ensures r.NilErrorPanic? <==> m.state == StateFailure && m.err.None?
    ensures m.state == StateFailure && m.err.Some? ==> r == FailureScreen("Failure: " + m.err.value)
  {
    if m.state == StateMenu then MenuScreen
    else if m.state == StateLoading then LoadingScreen(" Fetching Devices...")
    else if m.state == StateDevice then DeviceScreen
    else if m.state == StateFailure then
      match m.err
      case Some(e) => FailureScreen("Failure: " + e)
      case None => NilErrorPanic
    else Blank
  }

  /** The messages `Update` dispatches on. */
  datatype Msg =
    | WindowSize
    | Key(key: string)
    | Tick
    | Devices(res: DevicesResult)
    | Chosen(item: ListItem, sshErr: Option<string>)
    | OtherMsg

  /** `Update`: dispatch by message kind. Window and tick messages go to the
      device list and the spinner. */
  function Update(m: Model, msg: Msg): (r: Step)
    ensures msg.WindowSize? ==> r == Step(m, [Delegate(DeviceList)])
    ensures msg.Tick? ==> r == Step(m, [Delegate(Spinner)])
    ensures msg.Key? ==> r == HandleKeyPress(m, msg.key)
    ensures msg.Devices? ==> r == HandleResult(m, msg.res)
    ensures msg.Chosen? ==> r == HandleAction(m, msg.item, msg.sshErr)
    ensures msg.OtherMsg? ==> r == HandleDefault(m)
    ensures !msg.Devices? && !msg.Chosen? ==> r.model == m
  {
    match msg
    case WindowSize => Step(m, [Delegate(DeviceList)])
    case Key(k) => HandleKeyPress(m, k)
    case Tick => Step(m, [Delegate(Spinner)])
    case Devices(res) => HandleResult(m, res)
    case Chosen(item, sshErr) => HandleAction(m, item, sshErr)
    case OtherMsg => HandleDefault(m)
  }

  /** The model after a sequence of messages. */
  function RunMsgs(m: Model, msgs: seq<Msg>): Model
    decreases |msgs|
  {
    if |msgs| == 0 then m else RunMsgs(Update(m, msgs[0]).model, msgs[1..])
  }

  /** The picker's invariant: the state is one of the four screens, and the
      failure screen always has an error to show. */
  ghost predicate Valid(m: Model)
  {
    StateMenu <= m.state <= StateDevice && (m.state == StateFailure ==> m.err.Some?)
  }

  /** Every transition keeps the invariant. */
  lemma UpdatePreservesValid(m: Model, msg: Msg)
    requires Valid(m)
    ensures Valid(Update(m, msg).model)
  {
  }

  /** Every model reachable from the initial one is valid. */
  lemma {:induction false} ReachableValid(m: Model, msgs: seq<Msg>)
    requires Valid(m)
    ensures Valid(RunMsgs(m, msgs))
    decreases |msgs|
  {
    if |msgs| > 0 {
      UpdatePreservesValid(m, msgs[0]);
      ReachableValid(Update(m, msgs[0]).model, msgs[1..]);
    }
  }

  /** From the initial model, `View` never renders the empty string and never
      reaches the nil-error failure screen. */
  lemma ViewOfReachable(msgs: seq<Msg>)
    ensures var s := View(RunMsgs(Initial(), msgs)); !s.Blank? && !s.NilErrorPanic?
  {
    ReachableValid(Initial(), msgs);
  }

  /** Key routing agrees with the default routing on every screen but the
      loading one, where keys go nowhere while other messages reach the
      spinner. */
  lemma KeyRoutingMatchesDefault(m: Model, key: string)
    requires !IsQuitKey(key)
    ensures m.state != StateLoading ==> HandleKeyPress(m, key) == HandleDefault(m)
    ensures m.state == StateLoading ==>
      HandleKeyPress(m, key).effects == [] && HandleDefault(m).effects == [Delegate(Spinner)]
  {
  }

  /** A successful fetch lists one item per tag occurrence, each naming a
      tagged device, and every tagged device is listed. */
  lemma ResultItems(m: Model, res: DevicesResult)
    requires res.err.None?
    ensures var items := HandleResult(m, res).model.deviceItems;
      && |items| == TagCount(res.devices)
      && (forall it :: it in items ==>
            it.action == ActionDeviceSSH && exists d :: d in res.devices && E2eTag in d.tags && it == ItemFor(d))
      && (forall d :: d in res.devices && E2eTag in d.tags ==> ItemFor(d) in items)
  {
    ItemCountIsTagCount(res.devices);
    ItemsAreTaggedDevices(res.devices);
  }
}
