/** The copyable carrier that hands a native window handle from a platform adapter to a
    graphics adapter without either depending on the other's concrete type. */
module WindowWrapper {

  /** A native window handle: one shape per windowing system, each a pair of opaque
      identifiers. The wrapper never owns the window it names. */
  datatype RawWindowHandle =
    | Win32(hwnd: nat, hinstance: nat)
    | Xlib(window: nat, display: nat)
    | Wayland(surface: nat, display: nat)
    | AppKit(nsWindow: nat, nsView: nat)

  /** Being a value, the wrapper is copied by assignment; a copy is equal to the original. */
  datatype EngineWindowWrapper = EngineWindowWrapper(rawWrapper: RawWindowHandle) {

    /** `raw_window_handle`: the handle the wrapper was created from. */
    function RawHandle(): RawWindowHandle
    {
      rawWrapper
    }
  }

  /** `EngineWindowWrapper::create` is total and keeps the handle it is given: the accessor
      returns it. */
  function Create(raw: RawWindowHandle): (w: EngineWindowWrapper)
    ensures w.RawHandle() == raw
  {
    EngineWindowWrapper(raw)
  }

  /** Two wrappers created from handles are equal exactly when the handles are. */
  lemma CreateInjective(a: RawWindowHandle, b: RawWindowHandle)
    ensures Create(a) == Create(b) <==> a == b
  {
  }

  /** Every wrapper is the one created from its own handle, so reading the handle and
      wrapping it again gives back the same wrapper. */
  lemma CreateOfRawHandle(w: EngineWindowWrapper)
    ensures Create(w.RawHandle()) == w
  {
  }
}
