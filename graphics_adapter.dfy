/** The graphics adapters the engine can be composed with, as a closed set of variants,
    and the compatibility predicate dispatched over them. */
module Graphics {
  import Platform
  import GraphicsVulkan

  /** `DummyGraphicsAdapter` is configured with whether it declares itself compatible;
      `Vulkan` refers to the adapter object, whose entry points change in place. */
  datatype GraphicsAdapter =
    | Dummy(compatible: bool)
    | Vulkan(adapter: GraphicsVulkan.GraphicsAdapterVulkan)

  /** `DummyGraphicsAdapter::default()` is compatible. */
  function DefaultDummy(): (g: GraphicsAdapter)
    ensures g.Dummy? && g.compatible
  {
    Dummy(true)
  }

  /** Each kind of adapter has its own fixed name. */
  function AdapterName(g: GraphicsAdapter): (r: string)
    ensures r == if g.Dummy? then "DummyGraphicsAdapter" else "GraphicsAdapterVulkan"
  {
    match g
    case Dummy(_) => "DummyGraphicsAdapter"
    case Vulkan(v) => v.AdapterName()
  }

  /** The `Display` form of an adapter is its name. */
  function Display(g: GraphicsAdapter): (r: string)
    ensures r == AdapterName(g)
  {
    AdapterName(g)
  }

  /** The one rule that decides whether an engine can be built from the two adapters. */
  function IsCompatibleWithPlatformAdapter(g: GraphicsAdapter, platform: Platform.PlatformAdapter): (r: bool)
    ensures g.Dummy? ==> r == g.compatible
    ensures g.Vulkan? ==> (r <==> Platform.CreatesWindowHandle(platform))
    ensures r ==> g.Dummy? || platform.Winit?
  {
    match g
    case Dummy(compatible) => compatible
    case Vulkan(v) => v.IsCompatibleWithPlatformAdapter(platform)
  }

  /** The dummy's verdict is its configured flag, whatever the platform. */
  lemma DummyIgnoresPlatform(compatible: bool, p: Platform.PlatformAdapter, q: Platform.PlatformAdapter)
    ensures IsCompatibleWithPlatformAdapter(Dummy(compatible), p) == compatible
    ensures IsCompatibleWithPlatformAdapter(Dummy(compatible), p)
         == IsCompatibleWithPlatformAdapter(Dummy(compatible), q)
  {
  }

  /** A graphics adapter that needs a window accepts a platform exactly when it creates
      window handles: the Vulkan adapter accepts the windowing adapter and refuses the
      dummy. */
  lemma VulkanNeedsWindowHandle(v: GraphicsVulkan.GraphicsAdapterVulkan, p: Platform.PlatformAdapter)
    ensures IsCompatibleWithPlatformAdapter(Vulkan(v), p) <==> Platform.CreatesWindowHandle(p)
    ensures !IsCompatibleWithPlatformAdapter(Vulkan(v), Platform.Dummy)
  {
  }

  /** The two adapters are told apart by name. */
  lemma AdapterNameIdentifiesKind(g: GraphicsAdapter, h: GraphicsAdapter)
    ensures AdapterName(g) == AdapterName(h) <==> g.Dummy? == h.Dummy?
    ensures Display(g) == AdapterName(g)
  {
  }
}
