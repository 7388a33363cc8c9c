/** Arrow-key navigation through the business list: which business a key
    press selects, with wrap-around at both ends. */
module Keyboard {
  import opened Types

  /** `findIndex(b => b.id === id)`: the first position carrying the id, or -1. */
  function FindIndex(businesses: seq<Business>, id: string): (r: int)
    ensures -1 <= r < |businesses|
    ensures r >= 0 ==> businesses[r].id == id && forall k :: 0 <= k < r ==> businesses[k].id != id
    ensures r == -1 ==> forall k :: 0 <= k < |businesses| ==> businesses[k].id != id
    decreases |businesses|
  {
    if businesses == [] then -1
    else if businesses[0].id == id then 0
    else
      var k := FindIndex(businesses[1..], id);
      if k == -1 then -1 else k + 1
  }

  /** The position of the selected business, -1 when nothing is selected or it is not listed. */
  function CurrentIndex(businesses: seq<Business>, selected: Option<Business>): (r: int)
    ensures -1 <= r < |businesses|
    ensures selected.None? ==> r == -1
    ensures selected.Some? && r >= 0 ==> businesses[r].id == selected.value.id
    ensures selected.Some? && r >= 0 ==> forall k :: 0 <= k < r ==> businesses[k].id != selected.value.id
    ensures selected.Some? && r == -1 ==> forall k :: 0 <= k < |businesses| ==> businesses[k].id != selected.value.id
  {
    if selected.None? then -1 else FindIndex(businesses, selected.value.id)
  }

  /** ArrowUp: the previous position, wrapping from the top (or from no position) to the last. */
  function UpIndex(current: int, len: nat): (r: Option<nat>)
    requires -1 <= current < len
    ensures r.None? <==> len == 0
    ensures r.Some? ==> r.value < len
    ensures r.Some? ==> r.value == if current > 0 then current - 1 else len - 1
  {
    if current > 0 then Some(current - 1)
    else if len > 0 then Some(len - 1)
    else None
  }

  /** ArrowDown: the next position, wrapping from the bottom to the first. */
  function DownIndex(current: int, len: nat): (r: Option<nat>)
    requires -1 <= current < len
    ensures r.None? <==> len == 0
    ensures r.Some? ==> r.value < len
    ensures r.Some? ==> r.value == if current < len - 1 then current + 1 else 0
  {
    if current < len - 1 then Some(current + 1)
    else if len > 0 then Some(0)
    else None
  }

  /** handleKeyDown: the position of the business to select, if any. Keys typed
      into an input or a text area are ignored; Escape and all other keys select nothing. */
  function Navigate(businesses: seq<Business>, selected: Option<Business>, key: string, fromInput: bool): (r: Option<nat>)
    ensures r.Some? ==> r.value < |businesses|
    ensures fromInput || businesses == [] || (key != "ArrowUp" && key != "ArrowDown") ==> r.None?
    ensures !fromInput && businesses != [] && (key == "ArrowUp" || key == "ArrowDown") ==> r.Some?
  {
    if fromInput then None
    else
      var current := CurrentIndex(businesses, selected);
      if key == "ArrowUp" then UpIndex(current, |businesses|)
      else if key == "ArrowDown" then DownIndex(current, |businesses|)
      else None
  }

  /** Ids are distinct: each business is found at its own position. */
  lemma FindIndexDistinct(businesses: seq<Business>, i: nat)
    requires i < |businesses|
    requires forall a, b :: 0 <= a < b < |businesses| ==> businesses[a].id != businesses[b].id
    ensures FindIndex(businesses, businesses[i].id) == i
  {
  }

  /** From any listed business, ArrowDown then ArrowUp, and ArrowUp then
      ArrowDown, come back to it (ids distinct, not typing in a field). */
  lemma {:induction false} DownUpRoundTrip(businesses: seq<Business>, i: nat)
    requires i < |businesses|
    requires forall a, b :: 0 <= a < b < |businesses| ==> businesses[a].id != businesses[b].id
    ensures var j := Navigate(businesses, Some(businesses[i]), "ArrowDown", false);
      j.Some? && Navigate(businesses, Some(businesses[j.value]), "ArrowUp", false) == Some(i)
    ensures var j := Navigate(businesses, Some(businesses[i]), "ArrowUp", false);
      j.Some? && Navigate(businesses, Some(businesses[j.value]), "ArrowDown", false) == Some(i)
  {
    FindIndexDistinct(businesses, i);
    var down := DownIndex(i, |businesses|).value;
    FindIndexDistinct(businesses, down);
    var up := UpIndex(i, |businesses|).value;
    FindIndexDistinct(businesses, up);
  }

  /** With nothing selected, ArrowDown picks the first business and ArrowUp the last. */
  lemma NothingSelected(businesses: seq<Business>)
    requires businesses != []
    ensures Navigate(businesses, None, "ArrowDown", false) == Some(0)
    ensures Navigate(businesses, None, "ArrowUp", false) == Some(|businesses| - 1)
  {
  }
}
