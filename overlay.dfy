/**
 * The expandable-card view: a card list filled once by a fetch, and an
 * overlay whose `active` value is `null`, `false` or a card.
 */
module CardOverlay {
  import opened Wrappers
  import opened Text
  import opened Listing

  /** `active`: `null` (never opened or closed by click), `false` (dismissed by Escape), or the expanded card. */
  datatype Active = Closed | Dismissed | Open(card: Retreat)

  /** `active && typeof active === "object"`: the test that shows the backdrop and the overlay. */
  predicate ShowsOverlay(a: Active)
    ensures ShowsOverlay(a) <==> a != Closed && a != Dismissed
  {
    a.Open?
  }

  /** The value the effect writes to `document.body.style.overflow` for `a`. */
  function BodyOverflow(a: Active): (r: string)
    ensures r == "hidden" <==> ShowsOverlay(a)
    ensures r == "auto" <==> !ShowsOverlay(a)
  {
    if ShowsOverlay(a) then "hidden" else "auto"
  }

  /** The overlay's tag line, `tags.join(", ")`. */
  function TagLine(tags: seq<string>): (r: string)
    ensures |tags| == 0 ==> r == ""
    ensures |tags| == 1 ==> r == tags[0]
  {
    Join(tags, ListSeparator)
  }

  /** The tag line gives back the tags, in order, when there is one or more and none holds `", "`. */
  lemma TagLineLossless(tags: seq<string>)
    requires |tags| >= 1
    requires forall i :: 0 <= i < |tags| ==> NoListSeparator(tags[i])
    ensures Split(TagLine(tags), ListSeparator) == tags
  {
    SplitJoin(tags);
  }

  /** The state of the expandable-card view, with the page body's overflow style it controls. */
  class ExpandableCard {
    var cards: seq<Retreat>
    var loading: bool
    var active: Active
    var bodyOverflow: string

    /** Scrolling is locked exactly while a card is open; no card exists before the fetch has settled. */
    ghost predicate Valid()
      reads this
    {
      && bodyOverflow == BodyOverflow(active)
      && (loading ==> cards == [])
    }

    /** Mounting: no cards, loading, nothing active, and the effect has written `"auto"`. */
    constructor ()
      ensures Valid()
      ensures cards == [] && loading && active == Closed && bodyOverflow == "auto"
    {
      cards := [];
      loading := true;
      active := Closed;
      bodyOverflow := BodyOverflow(Closed);
    }

    /** `setActive(a)` followed by the effect on `[active]`. */
    method SetActive(a: Active)
      requires Valid()
      modifies this
      ensures Valid()
      ensures active == a && bodyOverflow == BodyOverflow(a)
      ensures cards == old(cards) && loading == old(loading)
    {
      active := a;
      bodyOverflow := BodyOverflow(a);
    }

    /** Clicking a card of the list expands it. */
    method Select(card: Retreat)
      requires Valid() && card in cards
      modifies this
      ensures Valid()
      ensures active == Open(card) && bodyOverflow == "hidden"
      ensures cards == old(cards) && loading == old(loading)
    {
      SetActive(Open(card));
    }

    /** A keydown anywhere: Escape sets `active` to `false`, any other key does nothing. */
    method KeyDown(key: string)
      requires Valid()
      modifies this
      ensures Valid()
      ensures key == "Escape" ==> active == Dismissed && bodyOverflow == "auto"
      ensures key != "Escape" ==> active == old(active) && bodyOverflow == old(bodyOverflow)
      ensures cards == old(cards) && loading == old(loading)
    {
      if key == "Escape" {
        SetActive(Dismissed);
      }
    }

    /** The outside-click callback sets `active` to `null`. */
    method OutsideClick()
      requires Valid()
      modifies this
      ensures Valid()
      ensures active == Closed && bodyOverflow == "auto"
      ensures cards == old(cards) && loading == old(loading)
    {
      SetActive(Closed);
    }

    /** The close button, shown only while a card is open, sets `active` to `null`. */
    method CloseButton()
      requires Valid() && ShowsOverlay(active)
      modifies this
      ensures Valid()
      ensures active == Closed && bodyOverflow == "auto"
      ensures cards == old(cards) && loading == old(loading)
    {
      SetActive(Closed);
    }

    /** The mount fetch of all retreats succeeds with `data`. */
    method FetchSucceeded(data: seq<Retreat>)
      requires Valid() && loading
      modifies this
      ensures Valid()
      ensures cards == data && !loading
      ensures active == old(active) && bodyOverflow == old(bodyOverflow)
    {
      cards := data;
      loading := false;
    }

    /** The mount fetch fails: the error is logged and the list stays empty. */
    method FetchFailed()
      requires Valid() && loading
      modifies this
      ensures Valid()
      ensures cards == old(cards) && !loading
      ensures active == old(active) && bodyOverflow == old(bodyOverflow)
    {
      loading := false;
    }
  }

  /**
   * Opening a card and pressing Escape: the overlay is hidden again and
   * scrolling is unlocked.
   */
  method OpenThenEscape(data: seq<Retreat>, k: nat) returns (shown: bool, overflow: string)
    requires k < |data|
    ensures !shown && overflow == "auto"
  {
    var view := new ExpandableCard();
    view.FetchSucceeded(data);
    view.Select(data[k]);
    assert view.bodyOverflow == "hidden";
    view.KeyDown("Escape");
    shown, overflow := ShowsOverlay(view.active), view.bodyOverflow;
  }
}
