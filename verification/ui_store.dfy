/**
 * stores/ui-store.ts: layout flags (sidebar, mobile menu), which dialogs are
 * open, a queue of toast notifications and a global loading indicator.
 */
module UiStore {
  import opened Common

  datatype ToastType = Success | Error | Warning | Info

  datatype Toast = Toast(id: string, message: string, kind: ToastType)

  /** The dialogs the store tracks. */
  datatype Dialog = UserAdd | UserEdit | UserDelete | CategoryAdd | CategoryEdit

  datatype Dialogs = Dialogs(userAdd: bool, userEdit: bool, userDelete: bool, categoryAdd: bool, categoryEdit: bool)

  const AllClosed := Dialogs(false, false, false, false, false)

  function IsOpen(ds: Dialogs, d: Dialog): bool {
    match d
    case UserAdd => ds.userAdd
    case UserEdit => ds.userEdit
    case UserDelete => ds.userDelete
    case CategoryAdd => ds.categoryAdd
    case CategoryEdit => ds.categoryEdit
  }

  /** `set({ <dialog>Open: open })`: that dialog's flag and no other. */
  function WithDialog(ds: Dialogs, d: Dialog, open: bool): (r: Dialogs)
    ensures IsOpen(r, d) == open
    ensures forall e :: e != d ==> IsOpen(r, e) == IsOpen(ds, e)
  {
    match d
    case UserAdd => ds.(userAdd := open)
    case UserEdit => ds.(userEdit := open)
    case UserDelete => ds.(userDelete := open)
    case CategoryAdd => ds.(categoryAdd := open)
    case CategoryEdit => ds.(categoryEdit := open)
  }

  /** Setting a dialog to the state it is already in changes nothing. */
  lemma WithDialogSame(ds: Dialogs, d: Dialog)
    ensures WithDialog(ds, d, IsOpen(ds, d)) == ds
  {
  }

  // ---------------------------------------------------------------------------
  // Toasts

  function NotToast(id: string): Toast -> bool {
    (t: Toast) => t.id != id
  }

  /** `toasts.filter(toast => toast.id !== id)`. */
  function WithoutToast(toasts: seq<Toast>, id: string): (r: seq<Toast>)
    ensures |r| <= |toasts|
    ensures forall i :: 0 <= i < |r| ==> r[i].id != id && r[i] in toasts
    ensures forall i :: 0 <= i < |toasts| && toasts[i].id != id ==> toasts[i] in r
  {
    Filter(NotToast(id), toasts)
  }

  /** Removal keeps the other toasts in their order: it works piece by piece. */
  lemma WithoutToastPiecewise(a: seq<Toast>, b: seq<Toast>, id: string)
    ensures WithoutToast(a + b, id) == WithoutToast(a, id) + WithoutToast(b, id)
  {
    FilterConcat(NotToast(id), a, b);
  }

  /** Adding a toast with a fresh id and removing that id gives back the queue as it was. */
  lemma RemoveAfterAddToast(toasts: seq<Toast>, t: Toast)
    requires forall i :: 0 <= i < |toasts| ==> toasts[i].id != t.id
    ensures WithoutToast(toasts + [t], t.id) == toasts
  {
    FilterConcat(NotToast(t.id), toasts, [t]);
    FilterKeepsAll(NotToast(t.id), toasts);
  }

  /** `message || null`: an absent or empty message is no message. */
  function LoadingMessage(message: Option<string>): (r: Option<string>)
    ensures r.None? <==> message.None? || message.value == ""
    ensures r.Some? ==> r == message
  {
    if Truthy(message) then message else None
  }

  /** A snapshot of the store. */
  datatype UiState = UiState(
    sidebarOpen: bool, sidebarCollapsed: bool, mobileMenuOpen: bool,
    dialogs: Dialogs, toasts: seq<Toast>, globalLoading: bool, loadingMessage: Option<string>)

  const InitialUi := UiState(true, false, false, AllClosed, [], false, None)

  class UiStore {
    var sidebarOpen: bool
    var sidebarCollapsed: bool
    var mobileMenuOpen: bool
    var dialogs: Dialogs
    var toasts: seq<Toast>
    var globalLoading: bool
    var loadingMessage: Option<string>

    function View(): UiState
      reads this
    {
      UiState(sidebarOpen, sidebarCollapsed, mobileMenuOpen, dialogs, toasts, globalLoading, loadingMessage)
    }

    constructor ()
      ensures View() == InitialUi
    {
      sidebarOpen, sidebarCollapsed, mobileMenuOpen := true, false, false;
      dialogs, toasts, globalLoading, loadingMessage := AllClosed, [], false, None;
    }

    method ToggleSidebar()
      modifies this
      ensures View() == old(View()).(sidebarOpen := !old(sidebarOpen))
    {
      sidebarOpen := !sidebarOpen;
    }

    method SetSidebarOpen(open: bool)
      modifies this
      ensures View() == old(View()).(sidebarOpen := open)
    {
      sidebarOpen := open;
    }

    method SetSidebarCollapsed(collapsed: bool)
      modifies this
      ensures View() == old(View()).(sidebarCollapsed := collapsed)
    {
      sidebarCollapsed := collapsed;
    }

    method ToggleMobileMenu()
      modifies this
      ensures View() == old(View()).(mobileMenuOpen := !old(mobileMenuOpen))
    {
      mobileMenuOpen := !mobileMenuOpen;
    }

    method SetMobileMenuOpen(open: bool)
      modifies this
      ensures View() == old(View()).(mobileMenuOpen := open)
    {
      mobileMenuOpen := open;
    }

    /** The five dialog setters: `d` names which one. */
    method SetDialogOpen(d: Dialog, open: bool)
      modifies this
      ensures View() == old(View()).(dialogs := WithDialog(old(dialogs), d, open))
    {
      dialogs := WithDialog(dialogs, d, open);
    }

    /** `addToast(message, type = 'info')`, with the random id passed in: one toast at the end. */
    method AddToast(id: string, message: string, kind: Option<ToastType>)
      modifies this
      ensures View() == old(View()).(toasts := old(toasts) + [Toast(id, message, kind.GetOr(Info))])
    {
      toasts := toasts + [Toast(id, message, kind.GetOr(Info))];
    }

    method RemoveToast(id: string)
      modifies this
      ensures View() == old(View()).(toasts := WithoutToast(old(toasts), id))
    {
      toasts := WithoutToast(toasts, id);
    }

    method ClearToasts()
      modifies this
      ensures View() == old(View()).(toasts := [])
    {
      toasts := [];
    }

    /** `setGlobalLoading(loading, message?)`. */
    method SetGlobalLoading(loading: bool, message: Option<string>)
      modifies this
      ensures View() == old(View()).(globalLoading := loading, loadingMessage := LoadingMessage(message))
    {
      globalLoading, loadingMessage := loading, LoadingMessage(message);
    }
  }

  /** Two toggles of the sidebar, or of the mobile menu, leave the store as it was. */
  method ToggleTwiceRestores(ui: UiStore)
    modifies ui
    ensures ui.View() == old(ui.View())
  {
    ui.ToggleSidebar();
    ui.ToggleSidebar();
    ui.ToggleMobileMenu();
    ui.ToggleMobileMenu();
  }
}
