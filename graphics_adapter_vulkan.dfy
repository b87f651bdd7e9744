/** The Vulkan graphics adapter: it requires a window handle from its platform adapter and
    initializes by loading the Vulkan library, creating the entry points and fetching the
    window handle, in that order. Instance creation is not implemented yet. */
module GraphicsVulkan {
  import opened Errors
  import opened WindowWrapper
  import Platform
  import PlatformWinit

  /** The loaded Vulkan library, the entry points created from it, and an instance; each
      identified only by an opaque id. */
  datatype Loader = Loader(id: nat)
  datatype Entry = Entry(id: nat)
  datatype Instance = Instance(id: nat)

  class GraphicsAdapterVulkan {
    var entry: Option<Entry>
    var inst: Option<Instance>

    /** `Default`: nothing loaded, no instance. */
    constructor ()
      ensures entry == None && inst == None
    {
      entry, inst := None, None;
    }

    function AdapterName(): (r: string)
      ensures r == "GraphicsAdapterVulkan"
    {
      "GraphicsAdapterVulkan"
    }

    /** Instance creation always fails: it is not implemented. */
    function CreateInstance(): (r: Result<Instance>)
      ensures r.Err? && r.error == NotImplemented
    {
      Err(NotImplemented)
    }

    /** The adapter needs a window to render into, so it accepts exactly the platform
        adapters that create window handles. */
    function IsCompatibleWithPlatformAdapter(platform: Platform.PlatformAdapter): (r: bool)
      ensures r <==> Platform.CreatesWindowHandle(platform)
      ensures r <==> platform.Winit?
    {
      Platform.CreatesWindowHandle(platform)
    }

    /** `loaded` is the outcome of loading the Vulkan library and `entryFor` that of
        creating the entry points from it. The first failing step's error is returned and
        nothing is stored; the failure of instance creation is ignored; on success the
        entry points are stored. The instance is never stored. */
    method Initialize(platform: Platform.PlatformAdapter, loaded: Result<Loader>,
                      entryFor: Loader -> Result<Entry>)
      returns (r: Result<()>)
      modifies this`entry
      ensures inst == old(inst)
      ensures loaded.Err? ==> r == Err(loaded.error) && entry == old(entry)
      ensures loaded.Ok? && entryFor(loaded.value).Err? ==>
        r == Err(entryFor(loaded.value).error) && entry == old(entry)
      ensures loaded.Ok? && entryFor(loaded.value).Ok? && Platform.GetWindowHandle(platform).Err? ==>
        r == Err(Platform.GetWindowHandle(platform).error) && entry == old(entry)
      ensures r.Ok? <==>
        loaded.Ok? && entryFor(loaded.value).Ok? && Platform.GetWindowHandle(platform).Ok?
      ensures r.Ok? ==> entry == Some(entryFor(loaded.value).value)
    {
      var loader :- loaded;
      var created :- entryFor(loader);
      var window :- Platform.GetWindowHandle(platform);
      var discarded := CreateInstance();
      entry := Some(created);
      r := Ok(());
    }
  }

  /** Initializing against a windowing adapter that has not built its window fails with
      that adapter's error and leaves the graphics adapter as it was; once the window is
      built, the same call succeeds and stores the entry points but no instance. */
  method InitializeScenario(created: PlatformWinit.EventLoop, raw: RawWindowHandle, loader: Loader, e: Entry)
  {
    var platform := new PlatformWinit.PlatformAdapterWinit();
    var graphics := new GraphicsAdapterVulkan();
    var entryFor: Loader -> Result<Entry> := _ => Ok(e);
    var r := graphics.Initialize(Platform.Winit(platform), Ok(loader), entryFor);
    assert r == Err(WindowNotCreated);
    assert graphics.entry == None && graphics.inst == None;
    var built := platform.Initialize(created, Ok(raw));
    assert Platform.GetWindowHandle(Platform.Winit(platform)) == Ok(Create(raw));
    assert entryFor(loader) == Ok(e);
    r := graphics.Initialize(Platform.Winit(platform), Ok(loader), entryFor);
    assert r.Ok?;
    assert graphics.entry == Some(e) && graphics.inst == None;
  }
}
