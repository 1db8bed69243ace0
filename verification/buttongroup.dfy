/**
 * `EnhancedButtonGroup`: an item listener shared by toggle buttons that
 * lets at most a given number of them be selected at once. When one more
 * is selected, the most recently selected button is deselected first;
 * that deselection fires a DESELECTED event back into the group before
 * the new selection is counted.
 */
module Components {
  import opened Wrappers

  datatype StateChange = Selected | Deselected

  /** An `ItemEvent`: the button whose state changed, and the new state. */
  datatype ItemEvent = ItemEvent(source: ToggleButton, change: StateChange)

  /**
   * A toggle button as the group sees it: its state and the groups
   * listening to it. A listener added twice is registered twice and hears
   * every event twice, so the registrations are a multiset.
   */
  class ToggleButton {
    var selected: bool
    var listeners: multiset<EnhancedButtonGroup>

    constructor ()
      ensures !selected && listeners == multiset{}
    {
      selected := false;
      listeners := multiset{};
    }
  }

  class EnhancedButtonGroup {
    var nbSelected: int
    const nbSimultMax: int
    var lastSelected: ToggleButton?

    /**
     * The counter is within the maximum, and when the maximum is reached
     * the button that would be evicted is selected and reports to this
     * group exactly once.
     */
    ghost predicate Bounded()
      reads this, lastSelected
    {
      && 1 <= nbSimultMax
      && 0 <= nbSelected <= nbSimultMax
      && (nbSelected == nbSimultMax ==> lastSelected != null && lastSelected.selected && lastSelected.listeners[this] == 1)
    }

    /** The constructor: a maximum that is not positive becomes 1. */
    constructor (requested: int)
      ensures nbSimultMax == (if requested <= 0 then 1 else requested)
      ensures nbSelected == 0 && lastSelected == null
      ensures Bounded()
    {
      nbSimultMax := if requested <= 0 then 1 else requested;
      nbSelected := 0;
      lastSelected := null;
    }

    /**
     * `add(button)`: the group is registered on the button once more, even
     * when it already listens; the counters are untouched.
     */
    method Add(b: ToggleButton)
      modifies b`listeners
      ensures b.listeners == old(b.listeners) + multiset{this}
      ensures b.listeners[this] == old(b.listeners[this]) + 1
    {
      b.listeners := b.listeners + multiset{this};
    }

    /**
     * `remove(button)`: one registration of the group on the button is
     * dropped, if there is one; the counters are untouched.
     */
    method Remove(b: ToggleButton)
      modifies b`listeners
      ensures b.listeners == old(b.listeners) - multiset{this}
      ensures b.listeners[this] == if old(b.listeners[this]) == 0 then 0 else old(b.listeners[this]) - 1
      ensures old(Bounded()) && b != lastSelected ==> Bounded()
    {
      b.listeners := b.listeners - multiset{this};
    }

    /**
     * `itemStateChanged(e)`. A selection at the maximum first calls
     * `setSelected(false)` on the last selected button, which, when that
     * button was selected, fires DESELECTED to this group once for each
     * time the group is registered on it; then the new button becomes the
     * last selected and is counted. A deselection uncounts one button.
     */
    method ItemStateChanged(e: ItemEvent) returns (out: Outcome)
      modifies this`nbSelected, this`lastSelected, (if lastSelected == null then {} else {lastSelected})`selected
      decreases if e.change.Selected? then 1 else 0
      ensures e.change.Deselected? ==> out == Normal && nbSelected == old(nbSelected) - 1 && lastSelected == old(lastSelected)
      ensures e.change.Deselected? && lastSelected != null ==> lastSelected.selected == old(lastSelected.selected)
      ensures e.change.Selected? && old(nbSelected) == nbSimultMax && old(lastSelected) == null ==>
        out == Thrown(NullPointer) && nbSelected == old(nbSelected) && lastSelected == null
      ensures e.change.Selected? && old(nbSelected) != nbSimultMax ==>
        out == Normal && lastSelected == e.source && nbSelected == old(nbSelected) + 1
      ensures e.change.Selected? && old(nbSelected) == nbSimultMax && old(lastSelected) != null ==>
        && out == Normal && lastSelected == e.source && !old(lastSelected).selected
        && nbSelected == old(nbSelected) + 1 - (if old(lastSelected.selected) then old(lastSelected.listeners[this]) else 0)
      ensures e.change.Selected? && old(Bounded()) && e.source.selected && e.source.listeners[this] == 1 && e.source != old(lastSelected) ==>
        Bounded()
      ensures e.change.Deselected? && old(Bounded()) && old(nbSelected) > 0 ==> Bounded()
    {
      var button := e.source;
      if e.change == Selected {
        if nbSelected == nbSimultMax {
          if lastSelected == null {
            return Thrown(NullPointer);
          }
          var evicted := lastSelected;
          if evicted.selected {
            evicted.selected := false;
            var registrations := evicted.listeners[this];
            for i := 0 to registrations
              invariant lastSelected == evicted && !evicted.selected
              invariant nbSelected == old(nbSelected) - i
            {
              var _ := ItemStateChanged(ItemEvent(evicted, Deselected));
            }
          }
        }
        lastSelected := button;
        nbSelected := nbSelected + 1;
      } else {
        nbSelected := nbSelected - 1;
      }
      out := Normal;
    }
  }

  /**
   * The bound needs the last selected button to still report to the
   * group: once it has been removed while selected, evicting it fires no
   * DESELECTED here and the counter passes the maximum.
   */
  method RemovedLastSelectedOverflows() returns (g: EnhancedButtonGroup)
    ensures g.nbSimultMax == 1 && g.nbSelected == 2
  {
    g := new EnhancedButtonGroup(1);
    var a := new ToggleButton();
    var b := new ToggleButton();
    g.Add(a);
    g.Add(b);
    a.selected := true;
    var _ := g.ItemStateChanged(ItemEvent(a, Selected));
    g.Remove(a);
    b.selected := true;
    var _ := g.ItemStateChanged(ItemEvent(b, Selected));
  }

  /**
   * A button added twice hears every event twice: evicting it uncounts
   * it twice, and one `remove` leaves the group listening. Under a
   * maximum of one, selecting `b` after `a` leaves the counter at zero
   * with `b` selected.
   */
  method AddedTwiceUndercounts() returns (g: EnhancedButtonGroup, b: ToggleButton)
    ensures g.nbSimultMax == 1 && b.selected && g.nbSelected == 0
  {
    g := new EnhancedButtonGroup(1);
    var a := new ToggleButton();
    b := new ToggleButton();
    g.Add(a);
    g.Add(a);
    g.Add(b);
    a.selected := true;
    var _ := g.ItemStateChanged(ItemEvent(a, Selected));
    b.selected := true;
    var _ := g.ItemStateChanged(ItemEvent(b, Selected));
  }

  /** After adding a button twice and removing it once, the group still listens to it. */
  method RemoveDropsOneRegistration() returns (g: EnhancedButtonGroup, a: ToggleButton)
    ensures a.listeners[g] == 1
  {
    g := new EnhancedButtonGroup(1);
    a := new ToggleButton();
    g.Add(a);
    g.Add(a);
    g.Remove(a);
  }
}
