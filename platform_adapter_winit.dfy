/** The windowing-toolkit platform adapter: three optional resources filled by `Initialize`,
    and the event callback that turns close and escape events into a shutdown request. */
module PlatformWinit {
  import opened Errors
  import opened WindowWrapper

  /** The toolkit's event loop, identified only by an opaque id. */
  datatype EventLoop = EventLoop(id: nat)

  /** What the adapter asks of the toolkit when it builds its window. */
  datatype WindowAttributes = WindowAttributes(title: string, width: nat, height: nat)

  const MainWindow := WindowAttributes("Vulcan RT Rust", 1920, 1080)

  /** A native window as built by the toolkit: the attributes it was requested with and
      its raw handle. */
  datatype Window = Window(attributes: WindowAttributes, raw: RawWindowHandle)

  datatype VirtualKeyCode = Escape | OtherKey(code: nat)

  /** The events the callback distinguishes; every other toolkit event is `Other`. */
  datatype Event =
    | MainEventsCleared
    | CloseRequested
    | KeyboardInput(keycode: Option<VirtualKeyCode>)
    | Other

  /** What the event loop may be told to do after a callback. */
  datatype ControlFlow = Poll | Exit

  /** The state the callback works on: its captured `destroying` flag, the shared shutdown
      flag and the loop's control flow. */
  datatype LoopState = LoopState(destroying: bool, shutdownRequested: bool, controlFlow: ControlFlow)

  /** What the loop sees in sequence: an event dispatched to the callback, or a store of
      `true` into the shutdown flag by another of its holders (an interrupt handler). */
  datatype Occurrence = Dispatch(event: Event) | ExternalStore

  /** The state the loop starts in; the toolkit's initial control flow is `Poll`. */
  function LoopStart(shutdownRequested: bool): LoopState
  {
    LoopState(false, shutdownRequested, Poll)
  }

  /** A window close, or a keyboard event (press or release) whose key code is Escape. */
  predicate RequestsClose(e: Event)
  {
    e.CloseRequested? || e == KeyboardInput(Some(Escape))
  }

  /** The control flow tells the loop to exit exactly when the adapter is destroying, and a
      destroying adapter has always published the shutdown request. */
  predicate Coherent(s: LoopState)
  {
    (s.destroying ==> s.shutdownRequested) &&
    s.controlFlow == (if s.destroying then Exit else Poll)
  }

  /** One call of the event callback. */
  function HandleEvent(s: LoopState, e: Event): (r: LoopState)
    // once destroying, every event only sets the control flow to Exit
    ensures s.destroying ==> r == s.(controlFlow := Exit)
    // a close or escape starts destruction, and so does MainEventsCleared on a raised flag
    ensures !s.destroying ==>
      (r.destroying <==> RequestsClose(e) || (e.MainEventsCleared? && s.shutdownRequested))
    // only a close or escape writes the flag, and it writes true
    ensures !s.destroying ==> (r.shutdownRequested <==> s.shutdownRequested || RequestsClose(e))
    ensures r.controlFlow == (if r.destroying then Exit else Poll)
  {
    if s.destroying then
      s.(controlFlow := Exit)
    else
      var next :=
        match e
        case MainEventsCleared =>
          if s.shutdownRequested then s.(destroying := true) else s
        case CloseRequested =>
          s.(destroying := true, shutdownRequested := true)
        case KeyboardInput(Some(Escape)) =>
          s.(destroying := true, shutdownRequested := true)
        case KeyboardInput(_) => s
        case Other => s;
      next.(controlFlow := if next.destroying then Exit else Poll)
  }

  /** One occurrence seen by the loop. */
  function Apply(s: LoopState, o: Occurrence): (r: LoopState)
    ensures s.destroying ==> r.destroying
    ensures s.shutdownRequested ==> r.shutdownRequested
    ensures Coherent(s) ==> Coherent(r)
  {
    match o
    case Dispatch(e) => HandleEvent(s, e)
    case ExternalStore => s.(shutdownRequested := true)
  }

  /** The state after the loop has seen `occurrences` in order, starting from `s`. Neither
      flag is ever lowered, and coherence is kept throughout. */
  function Run(s: LoopState, occurrences: seq<Occurrence>): (r: LoopState)
    ensures s.destroying ==> r.destroying
    ensures s.shutdownRequested ==> r.shutdownRequested
    ensures Coherent(s) ==> Coherent(r)
    decreases |occurrences|
  {
    if occurrences == [] then s else Run(Apply(s, occurrences[0]), occurrences[1..])
  }

  /** Occurrence `i` starts destruction, provided nothing before it has: a close or escape,
      or MainEventsCleared while the flag is raised (initially or by an earlier store). */
  predicate TriggersAt(raised: bool, occurrences: seq<Occurrence>, i: int)
    requires 0 <= i < |occurrences|
  {
    occurrences[i].Dispatch? &&
    (RequestsClose(occurrences[i].event) ||
     (occurrences[i].event.MainEventsCleared? && (raised || ExternalStore in occurrences[..i])))
  }

  ghost predicate Triggered(raised: bool, occurrences: seq<Occurrence>)
  {
    exists i :: 0 <= i < |occurrences| && TriggersAt(raised, occurrences, i)
  }

  lemma TriggersAtShift(raised: bool, occurrences: seq<Occurrence>, i: int)
    requires 1 <= i < |occurrences|
    ensures TriggersAt(raised || occurrences[0] == ExternalStore, occurrences[1..], i - 1)
        <==> TriggersAt(raised, occurrences, i)
  {
  }

  /** The loop ends up destroying exactly when it already was, or some occurrence
      triggered destruction. */
  lemma {:induction false} RunDestroyingIff(s: LoopState, occurrences: seq<Occurrence>)
    ensures Run(s, occurrences).destroying <==> s.destroying || Triggered(s.shutdownRequested, occurrences)
    decreases |occurrences|
  {
    if occurrences != [] {
      var o, rest := occurrences[0], occurrences[1..];
      var next := Apply(s, o);
      RunDestroyingIff(next, rest);
      if !s.destroying && !next.destroying {
        assert !TriggersAt(s.shutdownRequested, occurrences, 0);
        assert next.shutdownRequested == (s.shutdownRequested || o == ExternalStore);
        if Triggered(next.shutdownRequested, rest) {
          var k :| 0 <= k < |rest| && TriggersAt(next.shutdownRequested, rest, k);
          TriggersAtShift(s.shutdownRequested, occurrences, k + 1);
        }
        if Triggered(s.shutdownRequested, occurrences) {
          var k :| 0 <= k < |occurrences| && TriggersAt(s.shutdownRequested, occurrences, k);
          TriggersAtShift(s.shutdownRequested, occurrences, k);
        }
      } else if !s.destroying {
        assert TriggersAt(s.shutdownRequested, occurrences, 0);
      }
    }
  }

  /** Starting coherent, the flag ends up raised exactly when it started raised, another
      holder stored into it, or the adapter itself started destruction. */
  lemma {:induction false} RunShutdownIff(s: LoopState, occurrences: seq<Occurrence>)
    requires Coherent(s)
    ensures Run(s, occurrences).shutdownRequested <==>
      s.shutdownRequested || ExternalStore in occurrences || Run(s, occurrences).destroying
    decreases |occurrences|
  {
    if occurrences != [] {
      var o, rest := occurrences[0], occurrences[1..];
      RunShutdownIff(Apply(s, o), rest);
      assert occurrences == [o] + rest;
    }
  }

  /** Once destroying, occurrences change nothing but the control flow (Exit after any
      dispatched event) and the flag (raised by stores of other holders). */
  lemma {:induction false} RunWhileDestroying(s: LoopState, occurrences: seq<Occurrence>)
    requires s.destroying
    ensures Run(s, occurrences).destroying
    ensures Run(s, occurrences).shutdownRequested == (s.shutdownRequested || ExternalStore in occurrences)
    ensures Run(s, occurrences).controlFlow ==
      if exists i :: 0 <= i < |occurrences| && occurrences[i].Dispatch? then Exit else s.controlFlow
    decreases |occurrences|
  {
    if occurrences != [] {
      var o, rest := occurrences[0], occurrences[1..];
      RunWhileDestroying(Apply(s, o), rest);
      assert occurrences == [o] + rest;
      if exists i :: 0 <= i < |rest| && rest[i].Dispatch? {
        var i :| 0 <= i < |rest| && rest[i].Dispatch?;
        assert occurrences[i + 1].Dispatch?;
      }
      if o.Dispatch? {
        assert occurrences[0].Dispatch?;
      }
    }
  }

  /** The shutdown flag, shared between the engine, the adapter's event loop and any
      interrupt handler (an `Arc<AtomicBool>`; every access is taken to be sequential). */
  class ShutdownFlag {
    var requested: bool

    constructor (initial: bool)
      ensures requested == initial
    {
      requested := initial;
    }

    /** Reads the flag without changing it. */
    method Load() returns (v: bool)
      ensures v == requested
    {
      v := requested;
    }

    /** Writes the flag; the adapter and the interrupt handler only ever write `true`. */
    method Store(v: bool)
      modifies this
      ensures requested == v
    {
      requested := v;
    }
  }

  /** The outcome of `run_event_loop`: it fails when no event loop is available; otherwise
      the toolkit loop never returns to the caller, and `Dispatched` reports the state the
      loop has reached after the occurrences supplied. */
  datatype EventLoopRun = Failed(error: Error) | Dispatched(state: LoopState)

  class PlatformAdapterWinit {
    var eventLoop: Option<EventLoop>
    var window: Option<Window>
    var windowWrapper: Option<EngineWindowWrapper>

    /** `Default`: no resource exists yet. */
    constructor ()
      ensures eventLoop == None && window == None && windowWrapper == None
    {
      eventLoop, window, windowWrapper := None, None, None;
    }

    function AdapterName(): (r: string)
      ensures r == "PlatformAdapterWinit"
    {
      "PlatformAdapterWinit"
    }

    /** The adapter always declares that it creates a window handle. */
    function CreatesWindowHandle(): (r: bool)
      ensures r
    {
      true
    }

    /** The window, once `Initialize` has built it. */
    function GetWindow(): (r: Result<Window>)
      reads this
      ensures r.Ok? <==> window.Some?
      ensures r.Ok? ==> r.value == window.value
      ensures r.Err? ==> r.error == WindowNotCreated
    {
      Context(window, WindowNotCreated)
    }

    /** The wrapped window handle, once `Initialize` has built the window. */
    function GetWindowHandle(): (r: Result<EngineWindowWrapper>)
      reads this
      ensures r.Ok? <==> windowWrapper.Some?
      ensures r.Ok? ==> r.value == windowWrapper.value
      ensures r.Err? ==> r.error == WindowNotCreated
    {
      Context(windowWrapper, WindowNotCreated)
    }

    /** Creates the event loop `created` and asks the toolkit for the main window;
        `built` is the toolkit's answer. On failure nothing is stored. */
    method Initialize(created: EventLoop, built: Result<RawWindowHandle>) returns (r: Result<()>)
      modifies this
      ensures built.Err? ==> r == Err(built.error)
      ensures built.Err? ==>
        eventLoop == old(eventLoop) && window == old(window) && windowWrapper == old(windowWrapper)
      ensures built.Ok? ==> r == Ok(())
      ensures built.Ok? ==>
        eventLoop == Some(created) &&
        window == Some(Window(MainWindow, built.value)) &&
        windowWrapper == Some(Create(built.value))
      ensures built.Ok? ==>
        GetWindow().Ok? && GetWindowHandle().Ok? &&
        GetWindowHandle().value.RawHandle() == GetWindow().value.raw
    {
      var raw :- built;
      var w := Window(MainWindow, raw);
      eventLoop := Some(created);
      windowWrapper := Some(Create(w.raw));
      window := Some(w);
      r := Ok(());
    }

    /** Takes the event loop out of the adapter and runs the event callback over
        `occurrences`. The adapter is left without an event loop either way, so a second
        call fails. */
    method RunEventLoop(shutdownRequested: ShutdownFlag, occurrences: seq<Occurrence>)
      returns (r: EventLoopRun)
      modifies this`eventLoop, shutdownRequested
      ensures eventLoop == None && window == old(window) && windowWrapper == old(windowWrapper)
      ensures old(eventLoop) == None ==>
        r == Failed(EventLoopNotCreated) &&
        shutdownRequested.requested == old(shutdownRequested.requested)
      ensures old(eventLoop) != None ==>
        r == Dispatched(Run(LoopStart(old(shutdownRequested.requested)), occurrences)) &&
        shutdownRequested.requested == r.state.shutdownRequested
    {
      var taken := eventLoop;
      eventLoop := None;
      if taken == None {
        return Failed(EventLoopNotCreated);
      }
      ghost var start := LoopStart(shutdownRequested.requested);
      var destroying := false;
      var controlFlow := Poll;
      var i := 0;
      while i < |occurrences|
        invariant 0 <= i <= |occurrences|
        invariant eventLoop == None
        invariant Run(LoopState(destroying, shutdownRequested.requested, controlFlow), occurrences[i..])
               == Run(start, occurrences)
      {
        assert occurrences[i..][1..] == occurrences[i + 1..];
        match occurrences[i] {
          case ExternalStore =>
            shutdownRequested.Store(true);
          case Dispatch(event) =>
            if destroying {
              controlFlow := Exit;
            } else {
              controlFlow := Poll;
              match event {
                case MainEventsCleared =>
                  if !destroying {
                    var raised := shutdownRequested.Load();
                    if raised {
                      destroying := true;
                    }
                  }
                case CloseRequested =>
                  destroying := true;
                  shutdownRequested.Store(true);
                case KeyboardInput(keycode) =>
                  if keycode.Some? && keycode.value == Escape {
                    destroying := true;
                    shutdownRequested.Store(true);
                  }
                case Other =>
              }
              if destroying {
                controlFlow := Exit;
              }
            }
        }
        i := i + 1;
      }
      r := Dispatched(LoopState(destroying, shutdownRequested.requested, controlFlow));
    }
  }

  /** The adapter's life cycle as a caller sees it: no handle before `Initialize`, the
      built window's handle after it, a close request published to the shared flag, and a
      second run refused. */
  method LifecycleScenario(created: EventLoop, raw: RawWindowHandle)
  {
    var adapter := new PlatformAdapterWinit();
    assert adapter.GetWindowHandle() == Err(WindowNotCreated);
    assert adapter.GetWindow() == Err(WindowNotCreated);
    var init := adapter.Initialize(created, Ok(raw));
    assert init == Ok(()) && adapter.GetWindowHandle() == Ok(Create(raw));
    var flag := new ShutdownFlag(false);
    var run := adapter.RunEventLoop(flag, [Dispatch(Other), Dispatch(CloseRequested)]);
    assert run.Dispatched? && run.state.destroying && run.state.controlFlow == Exit;
    assert flag.requested;
    run := adapter.RunEventLoop(flag, []);
    assert run == Failed(EventLoopNotCreated);
  }
}
