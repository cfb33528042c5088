/**
 A session on the build page: user events applied to the checklist in order, and
 what any such sequence does to the record. `Run` accepts every sequence of events;
 `Enabled` and `EnabledRun` single out those the page can actually send, since it
 renders an item's proof input only while that item is ticked.
 */
module Session {
  import opened Wrappers
  import opened Checklist

  /** What the user can do: tick or untick an item, type its proof, or press Copy. */
  datatype Event =
    | ToggleItem(key: Key)
    | EditProof(key: Key, value: string)
    | CopyPrompt

  /** Whether event `e` addresses item `k`. */
  predicate Touches(e: Event, k: Key) {
    !e.CopyPrompt? && e.key == k
  }

  /** Applies one event; Copy reaches only the clipboard and leaves the checklist as it was. */
  function Step(s: State, e: Event): (r: State)
    requires Complete(s)
    ensures Complete(r)
    ensures forall j: Key :: !Touches(e, j) ==> r[j] == s[j]
    ensures e.CopyPrompt? ==> r == s
  {
    match e
    case ToggleItem(k) => Toggle(s, k)
    case EditProof(k, v) => SetProof(s, k, v)
    case CopyPrompt => s
  }

  /** Whether the page can send `e` in state `s`: a proof edit needs its item's input on screen. */
  predicate Enabled(s: State, e: Event)
    requires Complete(s)
  {
    !e.EditProof? || ProofInputShown(s, e.key)
  }

  /** A step the page can send never changes the proof of an unticked item. */
  lemma EnabledStepKeepsHiddenProof(s: State, e: Event, k: Key)
    requires Complete(s)
    requires Enabled(s, e)
    requires !s[k].checked
    ensures Step(s, e)[k].proof == s[k].proof
  {
  }

  /** Applies the events in order. */
  function Run(s: State, events: seq<Event>): (r: State)
    requires Complete(s)
    ensures Complete(r)
    decreases |events|
  {
    if events == [] then s else Run(Step(s, events[0]), events[1..])
  }

  /** The number of toggles of item `k` among the events. */
  function ToggleCount(events: seq<Event>, k: Key): (n: nat)
    ensures n <= |events|
    decreases |events|
  {
    if events == [] then 0
    else (if events[0] == ToggleItem(k) then 1 else 0) + ToggleCount(events[1..], k)
  }

  /** Whether every event of the session can be sent by the page in the state it meets. */
  predicate EnabledRun(s: State, events: seq<Event>)
    requires Complete(s)
    decreases |events|
  {
    events == [] || (Enabled(s, events[0]) && EnabledRun(Step(s, events[0]), events[1..]))
  }

  /** The value of the latest proof edit of item `k` among the events, if there is one. */
  function LastProof(events: seq<Event>, k: Key): (r: Option<string>)
    ensures r.Some? ==> exists i :: (0 <= i < |events| && events[i] == EditProof(k, r.value)
      && forall j :: i < j < |events| ==> !(events[j].EditProof? && events[j].key == k))
    ensures r.None? ==> forall i :: 0 <= i < |events| ==> !(events[i].EditProof? && events[i].key == k)
    decreases |events|
  {
    if events == [] then None
    else
      var e := events[|events| - 1];
      if e.EditProof? && e.key == k then Some(e.value)
      else LastProof(events[..|events| - 1], k)
  }

  /** Running two event sequences back to back is running their concatenation. */
  lemma {:induction false} RunAppend(s: State, a: seq<Event>, b: seq<Event>)
    requires Complete(s)
    ensures Run(s, a + b) == Run(Run(s, a), b)
    decreases |a|
  {
    if a == [] {
      assert a + b == b;
    } else {
      assert (a + b)[0] == a[0];
      assert (a + b)[1..] == a[1..] + b;
      RunAppend(Step(s, a[0]), a[1..], b);
    }
  }

  /** An item is ticked after a session exactly when it was toggled an odd number of times from its start. */
  lemma {:induction false} RunChecked(s: State, events: seq<Event>, k: Key)
    requires Complete(s)
    ensures Run(s, events)[k].checked == (s[k].checked != (ToggleCount(events, k) % 2 == 1))
    decreases |events|
  {
    if events != [] {
      RunChecked(Step(s, events[0]), events[1..], k);
    }
  }

  /** After a session an item's proof is the one typed last for it, or the starting proof if none was typed. */
  lemma {:induction false} RunProof(s: State, events: seq<Event>, k: Key)
    requires Complete(s)
    ensures Run(s, events)[k].proof == LastProof(events, k).GetOr(s[k].proof)
    decreases |events|
  {
    if events != [] {
      var init := events[..|events| - 1];
      var e := events[|events| - 1];
      assert events == init + [e];
      RunAppend(s, init, [e]);
      RunProof(s, init, k);
      var mid := Run(s, init);
      assert Run(mid, [e]) == Step(mid, e);
    }
  }

  /** An item no event addresses comes out of a session exactly as it went in. */
  lemma {:induction false} RunFrame(s: State, events: seq<Event>, k: Key)
    requires Complete(s)
    requires forall i :: 0 <= i < |events| ==> !Touches(events[i], k)
    ensures Run(s, events)[k] == s[k]
    decreases |events|
  {
    if events != [] {
      RunFrame(Step(s, events[0]), events[1..], k);
    }
  }

  /**
   In a session the page can send, an item that starts unticked and is never
   toggled keeps its item unchanged: no proof can be typed for it.
   */
  lemma {:induction false} EnabledRunKeepsUntoggledItem(s: State, events: seq<Event>, k: Key)
    requires Complete(s)
    requires EnabledRun(s, events)
    requires !s[k].checked
    requires ToggleCount(events, k) == 0
    ensures Run(s, events)[k] == s[k]
    decreases |events|
  {
    if events != [] {
      EnabledRunKeepsUntoggledItem(Step(s, events[0]), events[1..], k);
    }
  }

  /** Pressing Copy any number of times leaves the checklist as it was. */
  lemma {:induction false} CopyOnlyPreservesState(s: State, events: seq<Event>)
    requires Complete(s)
    requires forall i :: 0 <= i < |events| ==> events[i] == CopyPrompt
    ensures Run(s, events) == s
    decreases |events|
  {
    if events != [] {
      CopyOnlyPreservesState(s, events[1..]);
    }
  }

  /**
   The walk-through of the page: from the start, tick UI, type a link for it,
   then untick it. The item ends unticked, its input hidden, the link still stored.
   */
  lemma UncheckKeepsTypedLink(url: string)
    ensures var s := Run(Initial(), [ToggleItem(UI), EditProof(UI, url), ToggleItem(UI)]);
      && !s[UI].checked && s[UI].proof == url && ProofInput(s, UI) == None
      && forall j: Key :: j != UI ==> s[j] == Item(false, "")
  {
    var es := [ToggleItem(UI), EditProof(UI, url), ToggleItem(UI)];
    var s1 := Toggle(Initial(), UI);
    var s2 := SetProof(s1, UI, url);
    var s3 := Toggle(s2, UI);
    assert es[1..] == [EditProof(UI, url), ToggleItem(UI)];
    assert es[2..] == [ToggleItem(UI)];
    assert Run(s3, es[3..]) == s3;
    assert Run(s2, es[2..]) == s3;
    assert Run(s1, es[1..]) == s3;
  }
}
