/**
 * The crate's error type (`src/error.rs`): the thirteen `GameError`
 * variants, their `Display` text, their `description`, which of them have a
 * `cause`, and the conversions from the error types of the libraries the
 * crate uses.
 *
 * An error of a foreign library is known only by the three texts the crate
 * reads from it: its `Display` text, its `description()` and its `Debug` text.
 */
module Errors {
  import opened Outcomes

  /** An error value of another library (`io::Error`, `winit::CreationError`, `zip::ZipError`, ...). */
  datatype ForeignError = ForeignError(display: string, description: string, debug: string)

  /** `GameError`. `ResourceNotFound` carries the searched paths with the error met at each. */
  datatype GameError =
    | FilesystemError(message: string)
    | ConfigError(message: string)
    | EventLoopError(message: string)
    | ResourceLoadError(message: string)
    | ResourceNotFound(message: string, searched: seq<(string, GameError)>)
    | RenderError(message: string)
    | AudioError(message: string)
    | WindowError(message: string)
    | WindowCreationError(source: ForeignError)
    | IOError(source: ForeignError)
    | FontError(message: string)
    | VideoError(message: string)
    | GamepadError(message: string)

  /** The variant of an error, without its payload. */
  datatype ErrorKind =
    | FilesystemKind | ConfigKind | EventLoopKind | ResourceLoadKind | ResourceNotFoundKind
    | RenderKind | AudioKind | WindowKind | WindowCreationKind | IOKind | FontKind | VideoKind | GamepadKind

  function KindOf(e: GameError): ErrorKind
  {
    match e
    case FilesystemError(_) => FilesystemKind
    case ConfigError(_) => ConfigKind
    case EventLoopError(_) => EventLoopKind
    case ResourceLoadError(_) => ResourceLoadKind
    case ResourceNotFound(_, _) => ResourceNotFoundKind
    case RenderError(_) => RenderKind
    case AudioError(_) => AudioKind
    case WindowError(_) => WindowKind
    case WindowCreationError(_) => WindowCreationKind
    case IOError(_) => IOKind
    case FontError(_) => FontKind
    case VideoError(_) => VideoKind
    case GamepadError(_) => GamepadKind
  }

  // ---------------------------------------------------------------------
  // description and cause
  // ---------------------------------------------------------------------

  /** `Error::description`: one fixed text per variant, whatever the payload. */
  function Description(e: GameError): (d: string)
    ensures |d| > 0
  {
    match e
    case FilesystemError(_) => "Filesystem error"
    case ConfigError(_) => "Config file error"
    case EventLoopError(_) => "Event loop error"
    case ResourceLoadError(_) => "Resource load error"
    case ResourceNotFound(_, _) => "Resource not found"
    case RenderError(_) => "Render error"
    case AudioError(_) => "Audio error"
    case WindowError(_) => "Window error"
    case WindowCreationError(_) => "Window creation error"
    case IOError(_) => "IO error"
    case FontError(_) => "Font error"
    case VideoError(_) => "Video error"
    case GamepadError(_) => "Gamepad error"
  }

  /** The variant a description text names, if it is one of the thirteen. */
  function DescribedKind(d: string): Option<ErrorKind>
  {
    if d == "Filesystem error" then Some(FilesystemKind)
    else if d == "Config file error" then Some(ConfigKind)
    else if d == "Event loop error" then Some(EventLoopKind)
    else if d == "Resource load error" then Some(ResourceLoadKind)
    else if d == "Resource not found" then Some(ResourceNotFoundKind)
    else if d == "Render error" then Some(RenderKind)
    else if d == "Audio error" then Some(AudioKind)
    else if d == "Window error" then Some(WindowKind)
    else if d == "Window creation error" then Some(WindowCreationKind)
    else if d == "IO error" then Some(IOKind)
    else if d == "Font error" then Some(FontKind)
    else if d == "Video error" then Some(VideoKind)
    else if d == "Gamepad error" then Some(GamepadKind)
    else None
  }

  /** The description names the variant: reading it back gives the error's kind. */
  lemma DescriptionNamesKind(e: GameError)
    ensures DescribedKind(Description(e)) == Some(KindOf(e))
  {
  }

  /** Two errors have the same description exactly when they are the same variant. */
  lemma DescriptionIdentifiesKind(a: GameError, b: GameError)
    ensures Description(a) == Description(b) <==> KindOf(a) == KindOf(b)
  {
    DescriptionNamesKind(a);
    DescriptionNamesKind(b);
  }

  /** `Error::cause`: the wrapped error of `WindowCreationError` and `IOError`, nothing for any other variant. */
  function Cause(e: GameError): (c: Option<ForeignError>)
    ensures c.Some? <==> e.WindowCreationError? || e.IOError?
    ensures c.Some? ==> c.value == e.source
  {
    match e
    case WindowCreationError(source) => Some(source)
    case IOError(source) => Some(source)
    case _ => None
  }

  // ---------------------------------------------------------------------
  // Display
  // ---------------------------------------------------------------------

  /**
   * How the derived `Debug` renders values, which `Display` falls back on:
   * `error` renders a whole `GameError`, `paths` the searched-path list.
   */
  datatype DebugFormat = DebugFormat(error: GameError -> string, paths: seq<(string, GameError)> -> string)

  const ConfigPrefix := "Config error: "
  const ResourceLoadPrefix := "Error loading resource: "
  const ResourceNotFoundPrefix := "Resource not found: "
  const WindowPrefix := "Window creation error: "
  const FallbackPrefix := "GameError "

  /**
   * `Display::fmt`. `ConfigError`, `ResourceLoadError`, `ResourceNotFound`
   * and `WindowError` are recognisable from their displayed text; every
   * other variant displays as `GameError` followed by its debug rendering
   * and announces no kind.
   */
  function Display(e: GameError, debug: DebugFormat): (text: string)
    ensures e.ConfigError? || e.ResourceLoadError? || e.ResourceNotFound? || e.WindowError? ==>
      DisplayedKind(text) == Some(KindOf(e))
    ensures !(e.ConfigError? || e.ResourceLoadError? || e.ResourceNotFound? || e.WindowError?) ==>
      text == FallbackPrefix + debug.error(e) && DisplayedKind(text) == None
  {
    match e
    case ConfigError(s) =>
      assert ConfigPrefix <= ConfigPrefix + s;
      ConfigPrefix + s
    case ResourceLoadError(s) =>
      var text := ResourceLoadPrefix + s;
      assert text[0] == 'E' && ConfigPrefix[0] == 'C';
      assert ResourceLoadPrefix <= text;
      text
    case ResourceNotFound(s, paths) =>
      var text := ResourceNotFoundPrefix + (s + ", searched in paths " + debug.paths(paths));
      assert text[0] == 'R';
      assert ResourceNotFoundPrefix <= text;
      text
    case WindowError(s) =>
      var text := WindowPrefix + s;
      assert text[0] == 'W';
      assert WindowPrefix <= text;
      text
    case _ =>
      var text := FallbackPrefix + debug.error(e);
      assert text[0] == 'G';
      text
  }

  /** The variant a displayed text announces by its prefix: one of the four with a prefix of their own, or none. */
  function DisplayedKind(text: string): Option<ErrorKind>
  {
    if ConfigPrefix <= text then Some(ConfigKind)
    else if ResourceLoadPrefix <= text then Some(ResourceLoadKind)
    else if ResourceNotFoundPrefix <= text then Some(ResourceNotFoundKind)
    else if WindowPrefix <= text then Some(WindowKind)
    else None
  }

  /** The message of a prefixed variant is what follows its prefix, so `Display` loses none of it. */
  lemma DisplayKeepsMessage(e: GameError, debug: DebugFormat)
    requires e.ConfigError? || e.ResourceLoadError? || e.WindowError?
    ensures var prefix := if e.ConfigError? then ConfigPrefix else if e.ResourceLoadError? then ResourceLoadPrefix else WindowPrefix;
      prefix <= Display(e, debug) && Display(e, debug)[|prefix|..] == e.message
  {
  }

  // ---------------------------------------------------------------------
  // From conversions
  // ---------------------------------------------------------------------

  /** An error of one of the libraries `GameError` converts from, tagged with its type. */
  datatype ForeignSource =
    | AppDirs(error: ForeignError)
    | Io(error: ForeignError)
    | TomlDecode(error: ForeignError)
    | TomlEncode(error: ForeignError)
    | Zip(error: ForeignError)
    | Decoder(error: ForeignError)
    | ImageDecode(error: ForeignError)
    | EventsLoopClosed
    | WindowCreation(error: ForeignError)
    | Vulkan(error: ForeignError)
    | AshInstance(error: ForeignError)
    | AshDevice(error: ForeignError)
    | Gilrs(error: ForeignError)

  const EventsLoopClosedMessage := "An event loop proxy attempted to wake up an event loop that no longer exists."

  /** The `From<..> for GameError` conversions. */
  function FromForeign(src: ForeignSource): (e: GameError)
    ensures e.FilesystemError? <==> src.AppDirs?
    ensures e.IOError? <==> src.Io?
    ensures e.ConfigError? <==> src.TomlDecode? || src.TomlEncode?
    ensures e.ResourceLoadError? <==> src.Zip? || src.ImageDecode?
    ensures e.AudioError? <==> src.Decoder?
    ensures e.EventLoopError? <==> src.EventsLoopClosed?
    ensures e.WindowCreationError? <==> src.WindowCreation?
    ensures e.RenderError? <==> src.Vulkan? || src.AshInstance? || src.AshDevice?
    ensures e.GamepadError? <==> src.Gilrs?
    ensures !(e.ResourceNotFound? || e.WindowError? || e.FontError? || e.VideoError?)
  {
    match src
    case AppDirs(err) => FilesystemError(err.display)
    case Io(err) => IOError(err)
    case TomlDecode(err) => ConfigError("TOML decode error: " + err.description)
    case TomlEncode(err) => ConfigError("TOML error (possibly encoding?): " + err.description)
    case Zip(err) => ResourceLoadError("Zip error: " + err.description)
    case Decoder(err) => AudioError("Audio decoder error: " + err.debug)
    case ImageDecode(err) => ResourceLoadError("Image load error: " + err.description)
    case EventsLoopClosed => EventLoopError(EventsLoopClosedMessage)
    case WindowCreation(err) => WindowCreationError(err)
    case Vulkan(err) => RenderError("Ash error: " + err.display)
    case AshInstance(err) => RenderError("Ash error: " + err.display)
    case AshDevice(err) => RenderError("Ash error: " + err.display)
    case Gilrs(err) => GamepadError("Gamepad error: " + err.display)
  }

  /**
   * Only the io and window-creation conversions keep the foreign error as a
   * cause, and `cause` hands back exactly the error converted from.
   */
  lemma CauseOfConverted(src: ForeignSource)
    ensures Cause(FromForeign(src)).Some? <==> src.Io? || src.WindowCreation?
    ensures Cause(FromForeign(src)).Some? ==> Cause(FromForeign(src)).value == src.error
  {
  }

  /** Which of its texts a conversion reads from the foreign error: `description()`, `Debug` or `Display`. */
  function ForeignText(src: ForeignSource): string
    requires !src.EventsLoopClosed?
  {
    if src.TomlDecode? || src.TomlEncode? || src.Zip? || src.ImageDecode? then src.error.description
    else if src.Decoder? then src.error.debug
    else src.error.display
  }

  /**
   * A conversion that builds a message keeps the foreign text whole at its
   * end, after a label naming the library; only the app-dirs conversion
   * adds no label.
   */
  lemma ConvertedMessageEndsWithForeignText(src: ForeignSource)
    requires !(src.Io? || src.WindowCreation? || src.EventsLoopClosed?)
    ensures var message := FromForeign(src).message;
      |ForeignText(src)| <= |message| && message[|message| - |ForeignText(src)|..] == ForeignText(src)
    ensures src.AppDirs? <==> FromForeign(src).message == ForeignText(src)
  {
  }

  /** A zip or image failure displays as a resource-load error, its own label after the resource-load prefix. */
  lemma DisplayOfLoadFailure(src: ForeignSource, debug: DebugFormat)
    requires src.Zip? || src.ImageDecode?
    ensures Display(FromForeign(src), debug) ==
      ResourceLoadPrefix + (if src.Zip? then "Zip error: " else "Image load error: ") + src.error.description
    ensures DisplayedKind(Display(FromForeign(src), debug)) == Some(ResourceLoadKind)
  {
  }
}
