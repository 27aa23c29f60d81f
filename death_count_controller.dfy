/** `DeathCountController`: a controller attached to the death-count text
    object that rewrites the text whenever a death-count change is announced. */
module DeathCount {
  import opened Common
  import opened Events

  const TextPrefix: string := "Death Count: "

  /** The text `s` is the prefix followed by a decimal integer that reads back as `n`. */
  predicate ShowsCount(s: string, n: int)
  {
    |s| > |TextPrefix| && s[..|TextPrefix|] == TextPrefix &&
    var tail := s[|TextPrefix|..];
    (forall i :: (if tail[0] == '-' then 1 else 0) <= i < |tail| ==> '0' <= tail[i] <= '9') &&
    ParseInt(tail) == n
  }

  /** `"Death Count: " + n`. */
  function DeathCountText(n: int): (s: string)
    ensures ShowsCount(s, n)
  {
    IntToStringRoundTrip(n);
    assert (TextPrefix + IntToString(n))[|TextPrefix|..] == IntToString(n);
    TextPrefix + IntToString(n)
  }

  /** Two counts are shown alike exactly when they are equal. */
  lemma DeathCountTextInjective(a: int, b: int)
    ensures DeathCountText(a) == DeathCountText(b) <==> a == b
  {
    if DeathCountText(a) == DeathCountText(b) {
      ShowsOneCount(DeathCountText(a), a, b);
    }
  }

  /** A text shows at most one count. */
  lemma ShowsOneCount(s: string, a: int, b: int)
    requires ShowsCount(s, a) && ShowsCount(s, b)
    ensures a == b
  {
  }

  /** A `UITextObject`, by the one property this core changes. */
  class UITextObject {
    const id: string
    var text: string

    constructor (id: string, text: string)
      ensures this.id == id && this.text == text
    {
      this.id := id;
      this.text := text;
    }
  }

  /** The parameter shape the handler's cast needs: the first parameter is an integer. */
  predicate CountParam(e: Event)
  {
    |e.params| >= 1 && e.params[0].PInt?
  }

  /** The text after the controller has handled `e`: an OnDeathCountChange
      shows its parameter, whatever was shown before; any other action keeps the text. */
  function ControllerText(current: string, e: Event): (r: string)
    requires e.action == OnDeathCountChange ==> CountParam(e)
    ensures e.action == OnDeathCountChange ==> ShowsCount(r, e.params[0].n)
    ensures e.action != OnDeathCountChange ==> r == current
  {
    if e.action == OnDeathCountChange then DeathCountText(e.params[0].n) else current
  }

  /** The count shown is absolute: it does not depend on what was shown before,
      so delivering the same event twice leaves the same text as delivering it once. */
  lemma ControllerTextAbsolute(t1: string, t2: string, e: Event)
    requires e.action == OnDeathCountChange && CountParam(e)
    ensures ControllerText(t1, e) == ControllerText(t2, e)
    ensures ControllerText(ControllerText(t1, e), e) == ControllerText(t1, e)
  {
  }

  class DeathCountController {
    const id: string
    /** The text object it updates (`deathCount` in the source). */
    const target: UITextObject

    /** Subscribes to the UI category on construction. */
    constructor (id: string, target: UITextObject, dispatcher: EventDispatcher)
      modifies dispatcher`subscriptions
      ensures this.id == id && this.target == target
      ensures dispatcher.subscriptions == old(dispatcher.subscriptions) + [Subscription(UICategory, DeathCountHandler)]
    {
      this.id := id;
      this.target := target;
      new;
      dispatcher.Subscribe(UICategory, DeathCountHandler);
    }

    /** `HandleEvents` tests the action only, not the category. */
    method HandleEvents(e: Event)
      requires e.action == OnDeathCountChange ==> CountParam(e)
      modifies target`text
      ensures target.text == ControllerText(old(target.text), e)
    {
      if e.action == OnDeathCountChange {
        target.text := TextPrefix + IntToString(e.params[0].n);
      }
    }
  }
}
