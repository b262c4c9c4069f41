/** What the generated code does at run time, at the level of values.
    A property value is `Option<U>`, `None` being Kotlin's `null`.

    - `InitialValue` is the body of the generated `getInitialState`:
      defaults, overridden by the input object, overridden by a decodable
      snapshot from the bundle.
    - A delegate's state is the current event wrapper of each
      `BehaviorSubject`; `Push` replaces it with a fresh wrapper, `Read` is
      a subscriber's `get()`.
    - `SaveInstanceState` is the generated `onSaveInstanceState`. */
module Runtime {
  import opened Wrappers
  import opened Seqs
  import opened Events
  import opened Metadata
  import opened Artifacts

  /** A parcel as `Bundle.putParcelable` stores it: the snapshot class it was
      built as and its field values, in constructor order. */
  datatype Parcel<U> = Parcel(className: string, values: seq<Option<U>>)

  type Bundle<U> = map<string, Parcel<U>>

  /** `bundle?.getParcelable(key) as? <Snapshot>`: the snapshot's values,
      or nothing when the bundle is null, has no entry under the key, or
      holds a parcel of another class. */
  function Decode<U>(bundle: Option<Bundle<U>>, key: string, snapshotClass: string, arity: nat): (r: Option<seq<Option<U>>>)
    ensures r.Some? <==> bundle.Some? && key in bundle.value
                         && bundle.value[key].className == snapshotClass
                         && |bundle.value[key].values| == arity
    ensures r.Some? ==> r.value == bundle.value[key].values
  {
    if bundle.Some? && key in bundle.value && bundle.value[key].className == snapshotClass
       && |bundle.value[key].values| == arity
    then Some(bundle.value[key].values)
    else None
  }

  /** Replaces, in declaration order, the values of the properties
      satisfying `pick` with `vals` (a named-argument call or `copy`). */
  function Overlay<U>(ps: seq<Property>, base: seq<Option<U>>, pick: Property -> bool, vals: seq<Option<U>>): (r: seq<Option<U>>)
    requires |base| == |ps| && |vals| == |Filter(pick, ps)|
    ensures |r| == |ps|
  {
    if |ps| == 0 then []
    else if pick(ps[0]) then [vals[0]] + Overlay(ps[1..], base[1..], pick, vals[1..])
    else [base[0]] + Overlay(ps[1..], base[1..], pick, vals)
  }

  /** Each position takes its own value from `vals` (at its rank among the
      picked properties) when picked, and keeps `base` otherwise. */
  lemma {:induction false} OverlayAt<U>(ps: seq<Property>, base: seq<Option<U>>, pick: Property -> bool, vals: seq<Option<U>>, i: nat)
    requires |base| == |ps| && |vals| == |Filter(pick, ps)| && i < |ps|
    ensures pick(ps[i]) ==> Rank(pick, ps, i) < |vals|
    ensures Overlay(ps, base, pick, vals)[i] == if pick(ps[i]) then vals[Rank(pick, ps, i)] else base[i]
    decreases i
  {
    if pick(ps[i]) {
      FilterAt(pick, ps, i);
    }
    if i > 0 {
      RankTail(pick, ps, i);
      if pick(ps[0]) {
        OverlayAt(ps[1..], base[1..], pick, vals[1..], i - 1);
      } else {
        OverlayAt(ps[1..], base[1..], pick, vals, i - 1);
      }
    } else {
      assert ps[..0] == [];
    }
  }

  /** The generated `getInitialState` of a state class whose companion key
      is `key` and whose snapshot class is `snapshotClass`. `defaults` are
      the constructor defaults; `input` the input object's fields (ignored
      when there is no input class); `bundle` the saved state, if any. */
  function InitialValue<U>(ps: seq<Property>, defaults: seq<Option<U>>, snapshotClass: string, key: string,
                           bundle: Option<Bundle<U>>, input: seq<Option<U>>): (r: seq<Option<U>>)
    requires |defaults| == |ps|
    requires HasInput(ps) ==> |input| == |Filter(IsInputField, ps)|
    ensures |r| == |ps|
  {
    var initial := if HasInput(ps) then Overlay(ps, defaults, IsInputField, input) else defaults;
    if !IsParcelable(ps) then initial
    else
      match Decode(bundle, key, snapshotClass, |Filter(IsRetained, ps)|)
      case None => initial
      case Some(saved) => Overlay(ps, initial, IsRetained, saved)
  }

  /** The merge, field by field: a retained field comes from a decodable
      snapshot; otherwise an input field comes from the input object;
      anything else keeps its default. */
  lemma InitialValueAt<U>(ps: seq<Property>, defaults: seq<Option<U>>, snapshotClass: string, key: string,
                          bundle: Option<Bundle<U>>, input: seq<Option<U>>, i: nat)
    requires |defaults| == |ps| && i < |ps|
    requires HasInput(ps) ==> |input| == |Filter(IsInputField, ps)|
    ensures var saved := Decode(bundle, key, snapshotClass, |Filter(IsRetained, ps)|);
      var r := InitialValue(ps, defaults, snapshotClass, key, bundle, input);
      && (ps[i].isRetain && saved.Some? ==>
            Rank(IsRetained, ps, i) < |saved.value| && r[i] == saved.value[Rank(IsRetained, ps, i)])
      && (!(ps[i].isRetain && saved.Some?) && ps[i].isInput ==>
            Rank(IsInputField, ps, i) < |input| && r[i] == input[Rank(IsInputField, ps, i)])
      && (!(ps[i].isRetain && saved.Some?) && !ps[i].isInput ==> r[i] == defaults[i])
  {
    var initial := if HasInput(ps) then Overlay(ps, defaults, IsInputField, input) else defaults;
    if ps[i].isRetain {
      FilterAt(IsRetained, ps, i);
    }
    if ps[i].isInput {
      FilterAt(IsInputField, ps, i);
    }
    if HasInput(ps) {
      OverlayAt(ps, defaults, IsInputField, input, i);
    }
    var saved := Decode(bundle, key, snapshotClass, |Filter(IsRetained, ps)|);
    if IsParcelable(ps) && saved.Some? {
      OverlayAt(ps, initial, IsRetained, saved.value, i);
    }
  }

  // ----------------------------------------------------------- the delegate

  /** The current wrapper of each property's `BehaviorSubject`. */
  type DelegateState<U> = seq<Event<Option<U>>>

  /** `SingleEvent(value)` or `SimpleEvent(value)`, by the property's marker. */
  function Wrap<U>(p: Property, value: Option<U>): (r: Event<Option<U>>)
    ensures r.item == value
    ensures r.SingleEvent? <==> p.isSingle
    ensures r.SingleEvent? ==> !r.alreadyUsed
  {
    if p.isSingle then NewSingle(value) else SimpleEvent(value)
  }

  /** The subjects as the delegate is constructed: each seeded with its
      property's value from `getInitialState`, wrapped by its marker. */
  function Seed<U>(ps: seq<Property>, initial: seq<Option<U>>): (r: DelegateState<U>)
    requires |initial| == |ps|
    ensures |r| == |ps|
    ensures forall i :: 0 <= i < |ps| ==> r[i] == Wrap(ps[i], initial[i])
  {
    seq(|ps|, i requires 0 <= i < |ps| => Wrap(ps[i], initial[i]))
  }

  /** `push<Name>(value)`: the subject emits a fresh wrapper. */
  function Push<U>(ps: seq<Property>, st: DelegateState<U>, i: nat, value: Option<U>): (r: DelegateState<U>)
    requires |st| == |ps| && i < |ps|
    ensures |r| == |ps|
    ensures r[i].item == value && (r[i].SingleEvent? <==> ps[i].isSingle)
    ensures r[i].SingleEvent? ==> !r[i].alreadyUsed
    ensures forall j :: 0 <= j < |ps| && j != i ==> r[j] == st[j]
  {
    st[i := Wrap(ps[i], value)]
  }

  /** A subscriber's `event.get()` on property `i`'s current wrapper: what
      it sees and the state afterwards. */
  function Read<U>(st: DelegateState<U>, i: nat): (r: (Option<U>, DelegateState<U>))
    requires i < |st|
    ensures |r.1| == |st|
    ensures r.0.Some? <==> (st[i].SimpleEvent? || !st[i].alreadyUsed) && st[i].item.Some?
    ensures r.0.Some? ==> r.0 == st[i].item
    ensures r.1[i].item == st[i].item && r.1[i].SingleEvent? == st[i].SingleEvent?
    ensures r.1[i].SingleEvent? ==> r.1[i].alreadyUsed
    ensures forall j :: 0 <= j < |st| && j != i ==> r.1[j] == st[j]
  {
    var (seen, next) := Observe(st[i]);
    (seen, st[i := next])
  }

  /** A push re-arms the property whatever its previous wrapper: the next
      read sees the pushed value, and no other property changes. */
  lemma PushThenRead<U>(ps: seq<Property>, st: DelegateState<U>, i: nat, value: Option<U>)
    requires |st| == |ps| && i < |ps|
    ensures Read(Push(ps, st, i, value), i).0 == value
    ensures forall j :: 0 <= j < |ps| && j != i ==> Push(ps, st, i, value)[j] == st[j]
  {
  }

  /** After a read, a single-read property reads as `null` until the next
      push; a multi-read property keeps its value. */
  lemma ReadTwice<U>(ps: seq<Property>, st: DelegateState<U>, i: nat, value: Option<U>)
    requires |st| == |ps| && i < |ps|
    ensures var st1 := Read(Push(ps, st, i, value), i).1;
      Read(st1, i).0 == (if ps[i].isSingle then None else value)
  {
  }

  /** The snapshot's values: `<name>Subject.value!!.get()` for each
      retained property in order, each read acting on its subject. */
  function SaveValues<U>(ps: seq<Property>, st: DelegateState<U>): (r: (seq<Option<U>>, DelegateState<U>))
    requires |st| == |ps|
    ensures |r.0| == |Filter(IsRetained, ps)| && |r.1| == |ps|
  {
    if |ps| == 0 then ([], [])
    else
      var (values, rest) := SaveValues(ps[1..], st[1..]);
      if ps[0].isRetain then
        var (seen, next) := Observe(st[0]);
        ([seen] + values, [next] + rest)
      else (values, [st[0]] + rest)
  }

  /** Each retained property contributes what a `get()` on its wrapper
      returns, at its rank, and its wrapper is left as that `get()` leaves
      it; other properties are untouched. */
  lemma {:induction false} SaveValuesAt<U>(ps: seq<Property>, st: DelegateState<U>, i: nat)
    requires |st| == |ps| && i < |ps|
    ensures ps[i].isRetain ==> Rank(IsRetained, ps, i) < |SaveValues(ps, st).0|
    ensures ps[i].isRetain ==> SaveValues(ps, st).0[Rank(IsRetained, ps, i)] == Observe(st[i]).0
    ensures SaveValues(ps, st).1[i] == if ps[i].isRetain then Observe(st[i]).1 else st[i]
    decreases i
  {
    SaveValuesCons(ps, st);
    if i > 0 {
      RankTail(IsRetained, ps, i);
      SaveValuesAt(ps[1..], st[1..], i - 1);
      assert ps[1..][i - 1] == ps[i] && st[1..][i - 1] == st[i];
    } else {
      assert ps[..0] == [];
    }
  }

  /** One step of `SaveValues`. */
  lemma SaveValuesCons<U>(ps: seq<Property>, st: DelegateState<U>)
    requires |st| == |ps| && |ps| > 0
    ensures var rest := SaveValues(ps[1..], st[1..]);
      SaveValues(ps, st)
        == if ps[0].isRetain then ([Observe(st[0]).0] + rest.0, [Observe(st[0]).1] + rest.1)
           else (rest.0, [st[0]] + rest.1)
  {
  }

  /** The generated `onSaveInstanceState(bundle)`: builds the snapshot and
      stores it under the key when the bundle is not null. */
  function SaveInstanceState<U>(ps: seq<Property>, st: DelegateState<U>, snapshotClass: string, key: string,
                                bundle: Option<Bundle<U>>): (r: (Option<Bundle<U>>, DelegateState<U>))
    requires |st| == |ps| && IsParcelable(ps)
    ensures r.0.Some? <==> bundle.Some?
    ensures r.0.Some? ==> key in r.0.value && r.0.value[key].className == snapshotClass
    ensures r.0.Some? ==> forall k :: k in bundle.value && k != key ==> k in r.0.value && r.0.value[k] == bundle.value[k]
    ensures |r.1| == |ps|
  {
    var (values, next) := SaveValues(ps, st);
    var parcel := Parcel(snapshotClass, values);
    (if bundle.Some? then Some(bundle.value[key := parcel]) else None, next)
  }

  /** Saving and then constructing a delegate from the saved bundle
      restores every retained property to what a `get()` on its wrapper
      returned at save time; the other properties start from the input
      object or their defaults. */
  lemma SaveThenRestore<U>(ps: seq<Property>, st: DelegateState<U>, defaults: seq<Option<U>>,
                           snapshotClass: string, key: string, bundle: Bundle<U>, input: seq<Option<U>>, i: nat)
    requires |st| == |ps| && |defaults| == |ps| && IsParcelable(ps) && i < |ps|
    requires HasInput(ps) ==> |input| == |Filter(IsInputField, ps)|
    ensures var saved := SaveInstanceState(ps, st, snapshotClass, key, Some(bundle)).0;
      var r := InitialValue(ps, defaults, snapshotClass, key, saved, input);
      && (ps[i].isRetain ==> r[i] == Observe(st[i]).0)
      && (!ps[i].isRetain && ps[i].isInput ==>
            Rank(IsInputField, ps, i) < |input| && r[i] == input[Rank(IsInputField, ps, i)])
      && (!ps[i].isRetain && !ps[i].isInput ==> r[i] == defaults[i])
  {
    var saved := SaveInstanceState(ps, st, snapshotClass, key, Some(bundle)).0;
    SaveValuesAt(ps, st, i);
    InitialValueAt(ps, defaults, snapshotClass, key, saved, input, i);
  }

  /** A multi-read retained property is restored to its current value. */
  lemma SaveThenRestoreSimple<U>(ps: seq<Property>, st: DelegateState<U>, defaults: seq<Option<U>>,
                                 snapshotClass: string, key: string, bundle: Bundle<U>, input: seq<Option<U>>, i: nat)
    requires |st| == |ps| && |defaults| == |ps| && IsParcelable(ps) && i < |ps|
    requires HasInput(ps) ==> |input| == |Filter(IsInputField, ps)|
    requires ps[i].isRetain && st[i].SimpleEvent?
    ensures var saved := SaveInstanceState(ps, st, snapshotClass, key, Some(bundle)).0;
      InitialValue(ps, defaults, snapshotClass, key, saved, input)[i] == st[i].item
  {
    SaveThenRestore(ps, st, defaults, snapshotClass, key, bundle, input, i);
  }

  /** Saving reads single-read retained properties with the consuming
      `get()`: an unread event is spent by the save, so a subscriber reading
      afterwards sees `null`; one already read is saved as `null`. */
  lemma SaveConsumesSingle<U>(ps: seq<Property>, st: DelegateState<U>, snapshotClass: string, key: string,
                              bundle: Option<Bundle<U>>, i: nat)
    requires |st| == |ps| && IsParcelable(ps) && i < |ps|
    requires ps[i].isRetain && st[i].SingleEvent?
    ensures var after := SaveInstanceState(ps, st, snapshotClass, key, bundle).1;
      && after[i].SingleEvent? && after[i].alreadyUsed
      && Read(after, i).0 == None
    ensures st[i].alreadyUsed ==>
      Rank(IsRetained, ps, i) < |SaveValues(ps, st).0| && SaveValues(ps, st).0[Rank(IsRetained, ps, i)] == None
  {
    SaveValuesAt(ps, st, i);
    SaveLeaves(ps, st, snapshotClass, key, bundle);
    var after := SaveValues(ps, st).1;
    assert after[i] == Get(st[i]).1;
    UsedReadsNull(after[i]);
  }

  lemma SaveLeaves<U>(ps: seq<Property>, st: DelegateState<U>, snapshotClass: string, key: string,
                      bundle: Option<Bundle<U>>)
    requires |st| == |ps| && IsParcelable(ps)
    ensures SaveInstanceState(ps, st, snapshotClass, key, bundle).1 == SaveValues(ps, st).1
  {
  }

  lemma UsedReadsNull<U>(e: Event<Option<U>>)
    requires e.SingleEvent? && e.alreadyUsed
    ensures Observe(e).0 == None
  {
  }
}
