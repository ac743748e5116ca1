/** The part of `FluentSettings` that the core reads and writes. */
module Settings {
  import opened Wrappers

  /** The window options of a settings object, as a value. */
  datatype WindowOptions = WindowOptions(maximized: bool, width: Option<int>, height: Option<int>)

  /**
   * A settings object. The command provider keeps a reference to one and
   * writes the window size back into it, so it is shared, mutable state.
   */
  class FluentSettings {
    var windowMaximized: bool
    var windowWidth: Option<int>
    var windowHeight: Option<int>
    var isDryRun: bool

    constructor (maximized: bool, width: Option<int>, height: Option<int>, dryRun: bool)
      ensures Window() == WindowOptions(maximized, width, height) && isDryRun == dryRun
    {
      windowMaximized, windowWidth, windowHeight, isDryRun := maximized, width, height, dryRun;
    }

    function Window(): WindowOptions
      reads this
    {
      WindowOptions(windowMaximized, windowWidth, windowHeight)
    }
  }
}
