/**
 * The kernel's window list: windows are appended, a window's handle is its
 * position in the list, and the window created last becomes the active one.
 * Drawing, the theme and the desktop background are not part of this model.
 */
module Gui {
  import opened Common

  /** The items a window displays; the model never looks inside them. */
  type WindowContent(==)

  /** `Window`. */
  datatype Window = Window(
    title: string,
    x: nat,
    y: nat,
    width: nat,
    height: nat,
    content: seq<WindowContent>,
    isMinimized: bool,
    isMaximized: bool)

  /** `WindowHandle`: a position in the manager's list. */
  datatype WindowHandle = WindowHandle(index: nat)

  /** `Window::new`: the given title and geometry, no content, neither minimized nor maximized. */
  function NewWindow(title: string, x: nat, y: nat, width: nat, height: nat): (w: Window)
    ensures w.title == title && w.x == x && w.y == y && w.width == width && w.height == height
    ensures w.content == [] && !w.isMinimized && !w.isMaximized
  {
    Window(title, x, y, width, height, [], false, false)
  }

  /** `WindowManager`: the window list and the active window change. */
  class WindowManager {
    var windows: seq<Window>
    var activeWindow: Option<nat>

    /** The active window, when there is one, is a window of the list. */
    ghost predicate Valid()
      reads this
    {
      activeWindow.Some? ==> activeWindow.value < |windows|
    }

    /** `WindowManager::new`: no windows and none active. */
    constructor ()
      ensures Valid()
      ensures windows == [] && activeWindow == None
    {
      windows := [];
      activeWindow := None;
    }

    /**
     * `create_window`: appends one new window, leaving the others as they
     * were; its handle is the number of windows before the call, and it
     * becomes the active window.
     */
    method CreateWindow(title: string, x: nat, y: nat, width: nat, height: nat) returns (handle: WindowHandle)
      requires Valid()
      modifies this`windows, this`activeWindow
      ensures Valid()
      ensures handle.index == |old(windows)|
      ensures windows == old(windows) + [NewWindow(title, x, y, width, height)]
      ensures activeWindow == Some(handle.index)
      ensures windows[handle.index] == NewWindow(title, x, y, width, height)
    {
      var window := NewWindow(title, x, y, width, height);
      var index := |windows|;
      windows := windows + [window];
      activeWindow := Some(index);
      handle := WindowHandle(index);
    }
  }
}
