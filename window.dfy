/** The application window: what it loads, and when windows come and go. */
module Window {
  import opened Wrappers
  import opened Paths
  import Config

  const RendererVar := "ELECTRON_RENDERER_URL"
  const Darwin := "darwin"

  /** A window either loads a URL (`loadURL`) or a local file (`loadFile`). */
  datatype Target = Url(url: string) | File(path: string)

  /** The bundled renderer entry page, relative to the launcher's directory. */
  function IndexFile(dirname: string): string
  {
    Join(dirname, ["..", "dist", "index.html"])
  }

  /**
   * What a new window loads: the development server URL, verbatim, when it is
   * set and non-empty, the bundled entry page otherwise.
   */
  function LoadTarget(env: Config.Env, dirname: string): (t: Target)
    ensures t.Url? <==> RendererVar in env && env[RendererVar] != ""
    ensures t.Url? ==> t.url == env[RendererVar]
    ensures t.File? ==> t.path == IndexFile(dirname)
  {
    match Config.Setting(env, RendererVar)
    case Some(url) => Url(url)
    case None => File(IndexFile(dirname))
  }

  /** The `activate` rule: open a window only when none is open. */
  predicate CreatesOnActivate(openWindows: nat)
  {
    openWindows == 0
  }

  /** The `window-all-closed` rule: quit everywhere except on macOS. */
  predicate QuitsWhenAllClosed(platform: string)
  {
    platform != Darwin
  }
}
