// The dropdown widget: a button that opens and closes a list of options,
// and the options, one of them highlighted, that report a choice.

module Dropdown {

  /** One mounted dropdown. `options` is its prop; `isOpen` is its only state. */
  class Dropdown {
    const options: seq<string>
    var isOpen: bool

    /** A freshly mounted dropdown is closed. */
    constructor (options: seq<string>)
      ensures this.options == options && !isOpen
    {
      this.options := options;
      isOpen := false;
    }

    /** A click on the button flips `isOpen`; two clicks restore it. */
    method Toggle()
      modifies this
      ensures isOpen == !old(isOpen)
    {
      isOpen := !isOpen;
    }

    /** A click on the `k`-th option: the option is reported to `onSelect`
        (returned here) and the list closes. The options stay mounted and
        clickable while the list animates out, so a click with `isOpen`
        already false behaves the same way. */
    method Choose(k: nat) returns (chosen: string)
      requires k < |options|
      modifies this
      ensures chosen == options[k] && chosen in options
      ensures !isOpen
    {
      chosen := options[k];
      isOpen := false;
    }
  }

  /** Which rendered options carry the highlighted style: one flag per
      option, set exactly where the option equals `selected`. */
  function Highlights(options: seq<string>, selected: string): (r: seq<bool>)
    ensures |r| == |options|
    ensures forall i :: 0 <= i < |options| ==> (r[i] <==> options[i] == selected)
  {
    if |options| == 0 then []
    else [options[0] == selected] + Highlights(options[1..], selected)
  }

  /** Some option is highlighted iff `selected` is one of the options, and
      with distinct options (React keys them by value) at most one is. */
  lemma HighlightUnique(options: seq<string>, selected: string)
    requires forall j, k :: 0 <= j < k < |options| ==> options[j] != options[k]
    ensures (exists i :: 0 <= i < |options| && Highlights(options, selected)[i]) <==> selected in options
    ensures forall j, k ::
              0 <= j < |options| && 0 <= k < |options| &&
              Highlights(options, selected)[j] && Highlights(options, selected)[k]
              ==> j == k
  {
    if selected in options {
      var i :| 0 <= i < |options| && options[i] == selected;
      assert Highlights(options, selected)[i];
    }
  }
}
