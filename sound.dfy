/**
 * Idempotent attachment of the click-sound listener. Both pages select a set
 * of links or buttons and, for each one not yet carrying the
 * `data-sound-attached` attribute, add one click listener and set the attribute.
 * Audio playback inside the listener is not modelled.
 */
module Sound {

  /** The bookkeeping of one selected element. */
  datatype Element = Element(soundAttached: bool, clickListeners: nat)

  /** The effect of one iteration of the loop on its element. */
  function Attach(e: Element): Element
  {
    if e.soundAttached then e else Element(true, e.clickListeners + 1)
  }

  /** The effect of the whole loop on the selected elements, in selection order. */
  function AttachAll(s: seq<Element>): seq<Element>
  {
    if s == [] then [] else [Attach(s[0])] + AttachAll(s[1..])
  }

  /** The loop acts element-wise: same length, k-th element is `Attach` of the k-th. */
  lemma {:induction false} AttachAllAt(s: seq<Element>, k: nat)
    requires k < |s|
    ensures |AttachAll(s)| == |s|
    ensures AttachAll(s)[k] == Attach(s[k])
  {
    if k > 0 {
      AttachAllAt(s[1..], k - 1);
    } else if |s| > 1 {
      AttachAllAt(s[1..], 0);
    }
  }

  /**
   * Every element ends marked; an unmarked one gained exactly one listener,
   * a marked one is left exactly as it was.
   */
  lemma AttachAllEffect(s: seq<Element>, k: nat)
    requires k < |s|
    ensures |AttachAll(s)| == |s|
    ensures AttachAll(s)[k].soundAttached
    ensures !s[k].soundAttached ==> AttachAll(s)[k].clickListeners == s[k].clickListeners + 1
    ensures s[k].soundAttached ==> AttachAll(s)[k] == s[k]
  {
    AttachAllAt(s, k);
  }

  /** Running the loop a second time changes nothing. */
  lemma {:induction false} AttachAllIdempotent(s: seq<Element>)
    ensures AttachAll(AttachAll(s)) == AttachAll(s)
  {
    if s != [] {
      AttachAllIdempotent(s[1..]);
      assert AttachAll(s)[0] == Attach(s[0]);
      assert AttachAll(s)[1..] == AttachAll(s[1..]);
    }
  }

  /**
   * The `forEach` loop, in place over the selected elements: each element
   * lacking the marker gets a listener and the marker.
   */
  method AttachSound(buttons: array<Element>)
    modifies buttons
    ensures buttons[..] == AttachAll(old(buttons[..]))
  {
    var i := 0;
    while i < buttons.Length
      invariant 0 <= i <= buttons.Length
      invariant forall k :: 0 <= k < i ==> buttons[k] == Attach(old(buttons[k]))
      invariant forall k :: i <= k < buttons.Length ==> buttons[k] == old(buttons[k])
    {
      if !buttons[i].soundAttached {
        buttons[i] := Element(true, buttons[i].clickListeners + 1);
      }
      i := i + 1;
    }
    ghost var before := old(buttons[..]);
    if buttons.Length == 0 {
      assert before == [];
    } else {
      AttachAllAt(before, 0);
    }
    forall k | 0 <= k < buttons.Length
      ensures buttons[..][k] == AttachAll(before)[k]
    {
      AttachAllAt(before, k);
    }
  }
}
