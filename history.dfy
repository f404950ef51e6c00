/** The browser's session history as the router uses it: a list of
    entries, each a URL and a state bag (`history.state`), and the index of
    the current one; `location` is the current entry's URL. */
module History {
  import opened Strings
  import opened Urls

  /** `{ x: pageXOffset, y: pageYOffset }` */
  datatype ScrollPosition = ScrollPosition(x: int, y: int)

  /** A value in a state bag: the router's own scroll record, or data a
      caller of `goto` stored, kept opaque. */
  datatype StateValue = Scroll(position: ScrollPosition) | Data(text: string)

  type StateMap = map<string, StateValue>

  /** `state` is `None` for an entry whose state is `null`. */
  datatype Entry = Entry(url: Url, state: Option<StateMap>)

  /** The one key of the state bag the router owns. */
  const ScrollKey: string := "sveltekit:scroll"

  /** `history.state || {}` */
  function StateOrEmpty(state: Option<StateMap>): StateMap {
    if state.Some? then state.value else map[]
  }

  /** `{ ...(history.state || {}), 'sveltekit:scroll': position }`: the
      scroll record is set, every other key keeps its value. */
  function WithScroll(state: Option<StateMap>, position: ScrollPosition): (m: StateMap)
    ensures m.Keys == StateOrEmpty(state).Keys + {ScrollKey}
    ensures m[ScrollKey] == Scroll(position)
    ensures forall k :: k in StateOrEmpty(state) && k != ScrollKey ==> m[k] == StateOrEmpty(state)[k]
  {
    StateOrEmpty(state)[ScrollKey := Scroll(position)]
  }

  /** `state['sveltekit:scroll']` as the scroll option of a navigation;
      a missing key (or one holding a caller's data) gives no position. */
  function ScrollOf(state: StateMap): (r: Option<ScrollPosition>)
    ensures r.Some? <==> ScrollKey in state && state[ScrollKey].Scroll?
    ensures r.Some? ==> r.value == state[ScrollKey].position
  {
    if ScrollKey in state && state[ScrollKey].Scroll? then Some(state[ScrollKey].position) else None
  }

  /** A stored position is read back as it was written, whatever else the
      bag holds. */
  lemma ScrollRoundTrip(state: Option<StateMap>, position: ScrollPosition)
    ensures ScrollOf(WithScroll(state, position)) == Some(position)
  {
  }

  class BrowserHistory {
    var entries: seq<Entry>
    var index: nat

    ghost predicate Valid()
      reads this
    {
      index < |entries|
    }

    /** The current entry: `location` and `history.state`. */
    function Current(): Entry
      reads this
      requires Valid()
    {
      entries[index]
    }

    constructor (initial: Entry)
      ensures Valid() && entries == [initial] && index == 0
    {
      entries := [initial];
      index := 0;
    }

    /** `history.pushState(state, '', url)`: the entries after the current
        one are discarded and the new entry becomes current. */
    method PushState(e: Entry)
      requires Valid()
      modifies this
      ensures Valid()
      ensures entries == old(entries[..index + 1]) + [e] && index == old(index) + 1
      ensures old(index) == old(|entries|) - 1 ==> |entries| == old(|entries|) + 1
    {
      entries := entries[..index + 1] + [e];
      index := index + 1;
    }

    /** `history.replaceState(state, '', url)`: only the current entry
        changes. */
    method ReplaceState(e: Entry)
      requires Valid()
      modifies this
      ensures Valid()
      ensures entries == old(entries)[old(index) := e] && index == old(index)
      ensures |entries| == old(|entries|) && Current() == e
    {
      entries := entries[index := e];
    }

    /** Back/forward: the browser moves the current index and then fires
        `popstate`. */
    method Traverse(target: nat)
      requires Valid() && target < |entries|
      modifies this
      ensures Valid() && entries == old(entries) && index == target
    {
      index := target;
    }
  }
}
