/**
 The proof checklist of the build page: four fixed items, each a checkbox with a
 free-text proof, and the two updaters the page hands to its state hook.
 */
module Checklist {
  import opened Wrappers

  /** The closed set of checklist keys; no other key can be written down. */
  datatype Key = UI | Logic | Test | Deploy

  /** One checklist entry: whether it is ticked and the evidence typed for it. */
  datatype Item = Item(checked: bool, proof: string)

  /** The checklist record, keyed by `Key`. */
  type State = map<Key, Item>

  /** The record holds an item for every key, as its declared type demands. */
  ghost predicate Complete(s: State) {
    forall k: Key :: k in s
  }

  /** Holding the four keys by name is holding every key. */
  lemma FourKeysComplete(s: State)
    requires UI in s && Logic in s && Test in s && Deploy in s
    ensures Complete(s)
  {
    forall k: Key ensures k in s {
      match k
      case UI =>
      case Logic =>
      case Test =>
      case Deploy =>
    }
  }

  /** The spelling of each key in the page's code. */
  function KeyName(k: Key): string {
    match k
    case UI => "ui"
    case Logic => "logic"
    case Test => "test"
    case Deploy => "deploy"
  }

  /** Reads a key from its spelling; any other string is not a key. */
  function ParseKey(name: string): (r: Option<Key>)
    ensures r.Some? ==> KeyName(r.value) == name
    ensures r.None? ==> forall k: Key :: KeyName(k) != name
  {
    if name == "ui" then Some(UI)
    else if name == "logic" then Some(Logic)
    else if name == "test" then Some(Test)
    else if name == "deploy" then Some(Deploy)
    else None
  }

  /** Every key's spelling reads back as that key, and no two keys share a spelling. */
  lemma KeyNameRoundTrip(k: Key)
    ensures ParseKey(KeyName(k)) == Some(k)
    ensures forall j: Key :: KeyName(j) == KeyName(k) ==> j == k
  {
  }

  /** The state the page starts in: nothing ticked, no proof typed. */
  function Initial(): (s: State)
    ensures Complete(s)
    ensures forall k: Key :: s[k].checked == false && s[k].proof == ""
  {
    var s := map[UI := Item(false, ""), Logic := Item(false, ""), Test := Item(false, ""), Deploy := Item(false, "")];
    FourKeysComplete(s);
    s
  }

  /** Flips the tick of item `k`; its proof and every other item are copied over. */
  function Toggle(s: State, k: Key): (r: State)
    requires Complete(s)
    ensures Complete(r) && r.Keys == s.Keys
    ensures r[k].checked == !s[k].checked
    ensures r[k].proof == s[k].proof
    ensures forall j: Key :: j != k ==> r[j] == s[j]
  {
    s[k := s[k].(checked := !s[k].checked)]
  }

  /** Stores `v` as the proof of item `k`, verbatim; its tick and every other item are copied over. */
  function SetProof(s: State, k: Key, v: string): (r: State)
    requires Complete(s)
    ensures Complete(r) && r.Keys == s.Keys
    ensures r[k].proof == v
    ensures r[k].checked == s[k].checked
    ensures forall j: Key :: j != k ==> r[j] == s[j]
  {
    s[k := s[k].(proof := v)]
  }

  /** Whether the page renders the proof input for item `k`. */
  predicate ProofInputShown(s: State, k: Key)
    requires Complete(s)
  {
    s[k].checked
  }

  /** The proof input the page renders for item `k`: absent, or present holding the stored proof. */
  function ProofInput(s: State, k: Key): (r: Option<string>)
    requires Complete(s)
    ensures r.Some? <==> ProofInputShown(s, k)
    ensures r.Some? ==> r.value == s[k].proof
  {
    if s[k].checked then Some(s[k].proof) else None
  }

  /** Toggling the same item twice restores the whole record. */
  lemma ToggleInvolution(s: State, k: Key)
    requires Complete(s)
    ensures Toggle(Toggle(s, k), k) == s
  {
  }

  /** Writing a proof twice is the same as writing the second one only. */
  lemma SetProofLastWriteWins(s: State, k: Key, v1: string, v2: string)
    requires Complete(s)
    ensures SetProof(SetProof(s, k, v1), k, v2) == SetProof(s, k, v2)
  {
  }

  /** Writing the same proof again changes nothing. */
  lemma SetProofIdempotent(s: State, k: Key, v: string)
    requires Complete(s)
    ensures SetProof(SetProof(s, k, v), k, v) == SetProof(s, k, v)
  {
  }

  /** Writing back the proof already stored changes nothing. */
  lemma SetProofUnchanged(s: State, k: Key)
    requires Complete(s)
    ensures SetProof(s, k, s[k].proof) == s
  {
  }

  /** A toggle and a proof write touch different fields, so their order never matters. */
  lemma ToggleSetProofCommute(s: State, k1: Key, k2: Key, v: string)
    requires Complete(s)
    ensures Toggle(SetProof(s, k2, v), k1) == SetProof(Toggle(s, k1), k2, v)
  {
  }

  /** Toggles of two items commute. */
  lemma ToggleCommute(s: State, k1: Key, k2: Key)
    requires Complete(s)
    ensures Toggle(Toggle(s, k1), k2) == Toggle(Toggle(s, k2), k1)
  {
  }

  /** Proof writes to two different items commute. */
  lemma SetProofCommute(s: State, k1: Key, v1: string, k2: Key, v2: string)
    requires Complete(s)
    requires k1 != k2
    ensures SetProof(SetProof(s, k1, v1), k2, v2) == SetProof(SetProof(s, k2, v2), k1, v1)
  {
  }

  /**
   Unticking an item hides its proof input but keeps the proof, and ticking it
   again shows the input holding the same proof.
   */
  lemma UncheckHidesButKeepsProof(s: State, k: Key)
    requires Complete(s)
    requires s[k].checked
    ensures ProofInput(Toggle(s, k), k) == None
    ensures Toggle(s, k)[k].proof == s[k].proof
    ensures ProofInput(Toggle(Toggle(s, k), k), k) == Some(s[k].proof)
  {
  }

  /** In the starting state no proof input is shown. */
  lemma InitialShowsNoInput(k: Key)
    ensures !ProofInputShown(Initial(), k)
    ensures ProofInput(Initial(), k) == None
  {
  }
}
