/** The UI store slice (apps/web/src/store/slices/uiSlice.ts). The untyped modal payload is a
    JavaScript value, of which only truthiness matters here. */
module UiSlice {
  import opened Common

  /** A JavaScript value as far as truthiness is concerned (NaN is not represented). */
  datatype JsValue = Undefined | Null | Bool(b: bool) | Num(n: int) | Str(s: string) | Obj(ref: nat)

  predicate IsTruthy(v: JsValue) {
    match v
    case Undefined => false
    case Null => false
    case Bool(b) => b
    case Num(n) => n != 0
    case Str(s) => s != ""
    case Obj(_) => true
  }

  /** `data || null`: the data itself when truthy, null otherwise. */
  function OrNull(data: JsValue): (r: JsValue)
    ensures IsTruthy(data) ==> r == data
    ensures !IsTruthy(data) ==> r == Null
  {
    if IsTruthy(data) then data else Null
  }

  datatype Theme = Light | Dark | System

  class UiState {
    var sidebarOpen: bool
    var modal: Option<string>
    var modalData: JsValue
    var theme: Theme
    var selectedWorkspace: Option<string>

    constructor()
      ensures sidebarOpen && modal == None && modalData == Null && theme == System && selectedWorkspace == None
    {
      sidebarOpen := true;
      modal := None;
      modalData := Null;
      theme := System;
      selectedWorkspace := None;
    }

    method ToggleSidebar()
      modifies this
      ensures sidebarOpen == !old(sidebarOpen)
      ensures modal == old(modal) && modalData == old(modalData) && theme == old(theme) && selectedWorkspace == old(selectedWorkspace)
    {
      sidebarOpen := !sidebarOpen;
    }

    /** openModal; `data` is Undefined when the payload has no data. */
    method OpenModal(name: string, data: JsValue)
      modifies this
      ensures modal == Some(name) && modalData == OrNull(data)
      ensures sidebarOpen == old(sidebarOpen) && theme == old(theme) && selectedWorkspace == old(selectedWorkspace)
    {
      modal := Some(name);
      modalData := OrNull(data);
    }

    method CloseModal()
      modifies this
      ensures modal == None && modalData == Null
      ensures sidebarOpen == old(sidebarOpen) && theme == old(theme) && selectedWorkspace == old(selectedWorkspace)
    {
      modal := None;
      modalData := Null;
    }

    method SetTheme(t: Theme)
      modifies this
      ensures theme == t
      ensures sidebarOpen == old(sidebarOpen) && modal == old(modal) && modalData == old(modalData) && selectedWorkspace == old(selectedWorkspace)
    {
      theme := t;
    }

    method SetSelectedWorkspace(workspace: Option<string>)
      modifies this
      ensures selectedWorkspace == workspace
      ensures sidebarOpen == old(sidebarOpen) && modal == old(modal) && modalData == old(modalData) && theme == old(theme)
    {
      selectedWorkspace := workspace;
    }
  }
}
