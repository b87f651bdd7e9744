/** Composition of an engine from one platform adapter and one graphics adapter, refused
    when the graphics adapter is not compatible with the platform adapter. */
module EngineBuild {
  import opened Errors
  import Platform
  import Graphics
  import PlatformWinit
  import GraphicsVulkan

  /** The engine owns both adapters. */
  datatype Engine = Engine(platform: Platform.PlatformAdapter, graphics: Graphics.GraphicsAdapter)

  /** `build_engine`: the compatibility predicate is the only adapter behaviour consulted
      (the function reads no adapter state and changes none). An engine holding exactly
      the given adapters is returned when the graphics adapter accepts the platform
      adapter; otherwise an error naming both adapters by their display names. */
  function BuildEngine(platform: Platform.PlatformAdapter, graphics: Graphics.GraphicsAdapter): (r: Result<Engine>)
    ensures r.Err? <==> !Graphics.IsCompatibleWithPlatformAdapter(graphics, platform)
    ensures r.Ok? ==> r.value.platform == platform && r.value.graphics == graphics
    ensures r.Err? ==>
      r.error == Incompatible(Graphics.Display(graphics), Platform.Display(platform)) &&
      Mentions(Message(r.error), Graphics.AdapterName(graphics)) &&
      Mentions(Message(r.error), Platform.AdapterName(platform))
  {
    if !Graphics.IsCompatibleWithPlatformAdapter(graphics, platform) then
      IncompatibleMessageNamesBoth(Graphics.Display(graphics), Platform.Display(platform));
      Err(Incompatible(Graphics.Display(graphics), Platform.Display(platform)))
    else
      Ok(Engine(platform, graphics))
  }

  /** Whether an engine is built depends on nothing but the compatibility verdict: two
      graphics adapters with the same verdict on a platform fare alike. */
  lemma BuildDependsOnlyOnCompatibility(p: Platform.PlatformAdapter, g: Graphics.GraphicsAdapter, h: Graphics.GraphicsAdapter)
    requires Graphics.IsCompatibleWithPlatformAdapter(g, p) == Graphics.IsCompatibleWithPlatformAdapter(h, p)
    ensures BuildEngine(p, g).Ok? == BuildEngine(p, h).Ok?
  {
  }

  /** Test `build_engine_should_abort_if_adapters_are_not_compatible`. */
  lemma BuildAbortsIfAdaptersAreNotCompatible()
    ensures BuildEngine(Platform.DefaultDummy(), Graphics.Dummy(false))
         == Err(Incompatible("DummyGraphicsAdapter", "DummyPlatformAdapter"))
  {
  }

  /** Test `build_engine_should_create_engine_if_adapters_are_compatible`. */
  lemma BuildCreatesEngineIfAdaptersAreCompatible()
    ensures BuildEngine(Platform.DefaultDummy(), Graphics.DefaultDummy())
         == Ok(Engine(Platform.Dummy, Graphics.Dummy(true)))
  {
  }

  /** The Vulkan adapter can be composed with the windowing adapter and not with the
      dummy platform adapter. */
  lemma VulkanComposition(w: PlatformWinit.PlatformAdapterWinit, v: GraphicsVulkan.GraphicsAdapterVulkan)
    ensures BuildEngine(Platform.Winit(w), Graphics.Vulkan(v)) == Ok(Engine(Platform.Winit(w), Graphics.Vulkan(v)))
    ensures BuildEngine(Platform.Dummy, Graphics.Vulkan(v))
         == Err(Incompatible("GraphicsAdapterVulkan", "DummyPlatformAdapter"))
  {
  }
}
