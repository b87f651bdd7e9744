/** The error values of the engine and its adapters (the `anyhow::Result` of the source),
    with the messages the source attaches to them. */
module Errors {

  datatype Option<+T> = None | Some(value: T)

  /** Every error the core reports. Failures of foreign libraries (the windowing toolkit,
      the dynamic loader, the Vulkan entry points) are carried as `External`. */
  datatype Error =
    | Incompatible(graphics: string, platform: string)
    | WindowNotCreated
    | EventLoopNotCreated
    | NoWindowHandle
    | NotImplemented
    | External(description: string)

  /** `Result<T>` of the source; `:-` plays the role of Rust's `?`. */
  datatype Result<+T> = Ok(value: T) | Err(error: Error) {
    predicate IsFailure() { Err? }

    function PropagateFailure<U>(): Result<U>
      requires Err?
    {
      Err(error)
    }

    function Extract(): T
      requires Ok?
    {
      value
    }
  }

  /** Converts a missing value into the given error, as `Option::context` does. */
  function Context<T>(o: Option<T>, e: Error): (r: Result<T>)
    ensures r.Ok? <==> o.Some?
    ensures r.Ok? ==> r.value == o.value
    ensures r.Err? ==> r.error == e
  {
    match o
    case Some(v) => Ok(v)
    case None => Err(e)
  }

  const IncompatiblePrefix := "Graphics adapter "
  const IncompatibleMiddle := " is not compatible with platform adapter "

  /** The text the user sees for an error. The `NoWindowHandle` text is this model's own
      wording; every other text is the one the source attaches. */
  function Message(e: Error): (r: string)
    ensures e.Incompatible? ==> r == IncompatiblePrefix + e.graphics + IncompatibleMiddle + e.platform
    ensures e == WindowNotCreated ==> r == "Window has not been created"
    ensures e == EventLoopNotCreated ==> r == "run_event_loop called before event loop was created"
    ensures e == NoWindowHandle ==> r == "Platform adapter does not create a window handle"
    ensures e == NotImplemented ==> r == "Not implemented"
    ensures e.External? ==> r == e.description
  {
    match e
    case Incompatible(g, p) => IncompatiblePrefix + g + IncompatibleMiddle + p
    case WindowNotCreated => "Window has not been created"
    case EventLoopNotCreated => "run_event_loop called before event loop was created"
    case NoWindowHandle => "Platform adapter does not create a window handle"
    case NotImplemented => "Not implemented"
    case External(d) => d
  }

  predicate OccursAt(text: string, name: string, i: int)
  {
    0 <= i <= |text| - |name| && text[i..i + |name|] == name
  }

  /** `name` appears somewhere in `text`. */
  ghost predicate Mentions(text: string, name: string)
  {
    exists i :: OccursAt(text, name, i)
  }

  /** The incompatibility message names the graphics adapter first and the platform adapter
      second, each exactly as given. */
  lemma IncompatibleMessageNamesBoth(g: string, p: string)
    ensures OccursAt(Message(Incompatible(g, p)), g, |IncompatiblePrefix|)
    ensures OccursAt(Message(Incompatible(g, p)), p, |IncompatiblePrefix| + |g| + |IncompatibleMiddle|)
    ensures Mentions(Message(Incompatible(g, p)), g) && Mentions(Message(Incompatible(g, p)), p)
  {
    var m := Message(Incompatible(g, p));
    var i, j := |IncompatiblePrefix|, |IncompatiblePrefix| + |g| + |IncompatibleMiddle|;
    assert m == IncompatiblePrefix + g + IncompatibleMiddle + p;
    assert m[i..i + |g|] == g;
    assert m[j..j + |p|] == p;
    assert OccursAt(m, g, i) && OccursAt(m, p, j);
  }
}
