/** Rule records and the value-level view of a rule list: the priority
    renumbering, the edits `create` and `delete` make, and the invariant that
    priorities run 1..N in list order. */
module RuleValues {

  /** The account a rule maps a client to; `NoAccount` stands for "no account". */
  datatype Account = Account(id: string, name: string)

  /** A rule as the server sends and receives it. */
  datatype RuleRecord = RuleRecord(key: string, name: string, address: string, account: Account, priority: int)

  datatype Mode = View | Edit

  /** What one rule object holds at a given moment: its record and its UI mode. */
  datatype RuleState = RuleState(record: RuleRecord, mode: Mode)

  /** The pattern that matches any key, name or address. */
  const AnyPattern: string := "*"
  const NoAccount: Account := Account("-", "None")

  /** The record a newly created rule starts from. */
  function BlankRecord(priority: int): (r: RuleRecord)
    ensures r.key == AnyPattern && r.name == AnyPattern && r.address == AnyPattern
    ensures r.account == NoAccount && r.priority == priority
  {
    RuleRecord(AnyPattern, AnyPattern, AnyPattern, NoAccount, priority)
  }

  /** Priorities are 1..N in list order. */
  predicate Contiguous(s: seq<RuleState>) {
    forall i :: 0 <= i < |s| ==> s[i].record.priority == i + 1
  }

  /** `a` and `b` are the same rule in the same mode, whatever their priorities. */
  predicate SameButPriority(a: RuleState, b: RuleState) {
    a.record.(priority := 0) == b.record.(priority := 0) && a.mode == b.mode
  }

  function WithPriority(st: RuleState, priority: int): RuleState {
    st.(record := st.record.(priority := priority))
  }

  /** The list after `updatePriorities`: each rule's priority is its index plus one. */
  function Renumbered(s: seq<RuleState>): (r: seq<RuleState>)
    ensures |r| == |s| && Contiguous(r)
    ensures forall i :: 0 <= i < |s| ==> SameButPriority(r[i], s[i])
  {
    seq(|s|, i requires 0 <= i < |s| => WithPriority(s[i], i + 1))
  }

  /** The list after `reset`: every rule back in view mode. */
  function Viewed(s: seq<RuleState>): (r: seq<RuleState>)
    ensures |r| == |s|
    ensures forall i :: 0 <= i < |s| ==> r[i].record == s[i].record && r[i].mode == View
  {
    seq(|s|, i requires 0 <= i < |s| => s[i].(mode := View))
  }

  /** The list after `create`: earlier rules in view mode, then a blank rule in
      edit mode whose priority is the old length plus one. */
  function Created(s: seq<RuleState>): (r: seq<RuleState>)
    ensures |r| == |s| + 1 && r[..|s|] == Viewed(s)
    ensures r[|s|].mode == Edit && r[|s|].record == BlankRecord(|s| + 1)
  {
    Viewed(s) + [RuleState(BlankRecord(|s| + 1), Edit)]
  }

  /** `s` without its element at index `k`. */
  function RemoveAt<T>(s: seq<T>, k: nat): (r: seq<T>)
    requires k < |s|
    ensures |r| == |s| - 1
    ensures forall i :: 0 <= i < k ==> r[i] == s[i]
    ensures forall i :: k <= i < |r| ==> r[i] == s[i + 1]
  {
    s[..k] + s[k + 1..]
  }

  /** The index of the first occurrence of `x` in `s`, or -1 (JavaScript's `indexOf`). */
  function IndexOf<T(==)>(s: seq<T>, x: T): (k: int)
    ensures -1 <= k < |s|
    ensures k == -1 <==> x !in s
    ensures 0 <= k ==> s[k] == x && forall j :: 0 <= j < k ==> s[j] != x
  {
    if s == [] then -1
    else if s[0] == x then 0
    else
      var k := IndexOf(s[1..], x);
      if k == -1 then -1 else k + 1
  }

  /** The list after `delete` of the rule at index `k`: removed, the rest renumbered. */
  function Deleted(s: seq<RuleState>, k: nat): (r: seq<RuleState>)
    requires k < |s|
    ensures |r| == |s| - 1 && Contiguous(r)
    ensures forall i :: 0 <= i < |r| ==> SameButPriority(r[i], if i < k then s[i] else s[i + 1])
  {
    Renumbered(RemoveAt(s, k))
  }

  /** The rule objects `updateRules` builds from server records: one per record, in view mode. */
  function Loaded(records: seq<RuleRecord>): (r: seq<RuleState>)
    ensures |r| == |records|
    ensures forall i :: 0 <= i < |r| ==> r[i].mode == View && r[i].record == records[i]
  {
    seq(|records|, i requires 0 <= i < |records| => RuleState(records[i], View))
  }

  /** Each rule's serialised form (`rule.current()`), in order. */
  function Records(s: seq<RuleState>): (r: seq<RuleRecord>)
    ensures |r| == |s|
    ensures forall i :: 0 <= i < |s| ==> r[i] == s[i].record
  {
    seq(|s|, i requires 0 <= i < |s| => s[i].record)
  }

  // ---------------------------------------------------------------------------
  // Properties of the value-level operations

  /** Renumbering changes nothing exactly when priorities are already 1..N. */
  lemma RenumberedFixedIffContiguous(s: seq<RuleState>)
    ensures Renumbered(s) == s <==> Contiguous(s)
  {
  }

  /** Renumbering twice is renumbering once. */
  lemma RenumberedIdempotent(s: seq<RuleState>)
    ensures Renumbered(Renumbered(s)) == Renumbered(s)
  {
  }

  /** `create` keeps priorities contiguous, and only if they were contiguous before. */
  lemma CreatedContiguousIff(s: seq<RuleState>)
    ensures Contiguous(Created(s)) <==> Contiguous(s)
  {
    var c := Created(s);
    if Contiguous(c) {
      forall i | 0 <= i < |s| ensures s[i].record.priority == i + 1 {
        assert c[i] == Viewed(s)[i];
      }
    }
  }

  /** `create` appends exactly one blank rule in edit mode and leaves the earlier
      rules' records and order alone, in view mode. */
  lemma CreatedShape(s: seq<RuleState>)
    ensures |Created(s)| == |s| + 1
    ensures Records(Created(s))[..|s|] == Records(s)
    ensures Created(s)[|s|] == RuleState(RuleRecord("*", "*", "*", Account("-", "None"), |s| + 1), Edit)
    ensures forall i :: 0 <= i < |s| ==> Created(s)[i].mode == View
  {
  }

  /** What `save` sends after a `delete` of the rule at index `k`: the old
      serialised records without the k-th, in order, each carrying its new
      position as priority. */
  lemma DeletedRecords(s: seq<RuleState>, k: nat)
    requires k < |s|
    ensures |Records(Deleted(s, k))| == |s| - 1
    ensures forall i :: 0 <= i < |s| - 1 ==>
              Records(Deleted(s, k))[i] == RemoveAt(Records(s), k)[i].(priority := i + 1)
  {
  }

  /** Reading back each loaded rule's serialised form gives the server records,
      field for field: `updateRules` loses nothing. */
  lemma RecordsOfLoaded(records: seq<RuleRecord>)
    ensures Records(Loaded(records)) == records
  {
  }

  /** `updateRules` keeps whatever priorities the records carry: it does not by
      itself make them 1..N. */
  lemma LoadedNeedNotBeContiguous()
    ensures !Contiguous(Loaded([BlankRecord(2)]))
  {
    assert Loaded([BlankRecord(2)])[0].record.priority == 2;
  }

  // ---------------------------------------------------------------------------
  // Sequences of local edits

  /** A local edit: `create`, or `delete` of the rule at an index (an index
      outside the list stands for a rule that is not in it). */
  datatype LocalEdit = CreateRule | DeleteRule(index: int)

  function Apply(s: seq<RuleState>, e: LocalEdit): seq<RuleState> {
    match e
    case CreateRule => Created(s)
    case DeleteRule(k) => if 0 <= k < |s| then Deleted(s, k) else s
  }

  function ApplyAll(s: seq<RuleState>, edits: seq<LocalEdit>): seq<RuleState>
    decreases |edits|
  {
    if edits == [] then s else ApplyAll(Apply(s, edits[0]), edits[1..])
  }

  /** Starting from priorities 1..N, every sequence of creates and deletes keeps
      them 1..N after each step. */
  lemma {:induction false} EditsKeepContiguous(s: seq<RuleState>, edits: seq<LocalEdit>)
    requires Contiguous(s)
    ensures Contiguous(ApplyAll(s, edits))
    decreases |edits|
  {
    if edits != [] {
      if edits[0].CreateRule? {
        CreatedContiguousIff(s);
      }
      EditsKeepContiguous(Apply(s, edits[0]), edits[1..]);
    }
  }
}
