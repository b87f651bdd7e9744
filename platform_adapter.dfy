/** The platform adapters the engine can be composed with, as a closed set of variants,
    and the capability operations dispatched over them. */
module Platform {
  import opened Errors
  import opened WindowWrapper
  import PlatformWinit

  /** `DummyPlatformAdapter` has no fields; `Winit` refers to the adapter object, whose
      optional resources change in place. */
  datatype PlatformAdapter =
    | Dummy
    | Winit(adapter: PlatformWinit.PlatformAdapterWinit)

  /** `DummyPlatformAdapter::default()`: the one and only dummy. */
  function DefaultDummy(): (p: PlatformAdapter)
    ensures p.Dummy?
  {
    Dummy
  }

  /** The dummy carries no state, so any two dummies are the same adapter. */
  lemma DummiesIndistinguishable(p: PlatformAdapter, q: PlatformAdapter)
    requires p.Dummy? && q.Dummy?
    ensures p == q && p == DefaultDummy()
  {
  }

  /** Each kind of adapter has its own fixed name. */
  function AdapterName(p: PlatformAdapter): (r: string)
    ensures r == if p.Dummy? then "DummyPlatformAdapter" else "PlatformAdapterWinit"
  {
    match p
    case Dummy => "DummyPlatformAdapter"
    case Winit(w) => w.AdapterName()
  }

  /** The `Display` form of an adapter is its name. */
  function Display(p: PlatformAdapter): (r: string)
    ensures r == AdapterName(p)
  {
    AdapterName(p)
  }

  /** The dummy produces no window; the windowing adapter always does. */
  function CreatesWindowHandle(p: PlatformAdapter): (r: bool)
    ensures r <==> p.Winit?
  {
    match p
    case Dummy => false
    case Winit(w) => w.CreatesWindowHandle()
  }

  /** The window handle a graphics adapter binds against. An adapter that does not create
      window handles always refuses; the windowing adapter refuses until it has built its
      window. */
  function GetWindowHandle(p: PlatformAdapter): (r: Result<EngineWindowWrapper>)
    reads if p.Winit? then {p.adapter} else {}
    ensures !CreatesWindowHandle(p) ==> r == Err(NoWindowHandle)
    ensures p.Winit? ==> (r.Ok? <==> p.adapter.windowWrapper.Some?)
    ensures p.Winit? && r.Ok? ==> r.value == p.adapter.windowWrapper.value
  {
    match p
    case Dummy => Err(NoWindowHandle)
    case Winit(w) => w.GetWindowHandle()
  }

  /** The two adapters are told apart by name, so an error message that names an adapter
      identifies its kind. */
  lemma AdapterNameIdentifiesKind(p: PlatformAdapter, q: PlatformAdapter)
    ensures AdapterName(p) == AdapterName(q) <==> p.Dummy? == q.Dummy?
    ensures Display(p) == AdapterName(p)
  {
  }
}
