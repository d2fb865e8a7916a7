/**
 * The part of the renderer's global store that the settings surfaces touch: whether
 * the overlay window is shown. Each call of toggleShowSticky flips it, and the host
 * hides or re-creates the overlay window in response, so the number of calls is kept.
 */
module GlobalStore {

  class Store {
    var isShowSticky: bool
    var toggles: nat

    constructor (shown: bool)
      ensures isShowSticky == shown && toggles == 0
    {
      isShowSticky := shown;
      toggles := 0;
    }

    method ToggleShowSticky()
      modifies this
      ensures isShowSticky == !old(isShowSticky)
      ensures toggles == old(toggles) + 1
    {
      isShowSticky := !isShowSticky;
      toggles := toggles + 1;
    }
  }
}
