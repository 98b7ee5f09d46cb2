/**
 * The single-subscriber event pattern both adapters use: the `add` accessor stores a handler only
 * while none is stored, `remove` takes out the handler it is given, and raising the event calls
 * the stored handler, if any. Handlers are opaque identities; a call is recorded as a `Delivery`.
 */
module EventSlots {
  import opened Wrappers

  type Handler = nat

  datatype Delivery<T> = Delivery(handler: Handler, payload: T)

  /** The `add` accessor: the first handler registered wins. */
  function AddHandler(slot: Option<Handler>, h: Handler): (r: Option<Handler>)
    ensures r.Some?
    ensures slot.Some? ==> r == slot
    ensures slot.None? ==> r == Some(h)
  {
    if slot.None? then Some(h) else slot
  }

  /** The `remove` accessor: removing the stored handler empties the slot; removing any other is a no-op. */
  function RemoveHandler(slot: Option<Handler>, h: Handler): (r: Option<Handler>)
    ensures r != Some(h)
    ensures slot != Some(h) ==> r == slot
    ensures slot == Some(h) ==> r.None?
  {
    if slot == Some(h) then None else slot
  }

  /** Raising the event: one call of the stored handler, or nothing when the slot is empty. */
  function Raise<T>(slot: Option<Handler>, payload: T): (r: seq<Delivery<T>>)
    ensures |r| <= 1
    ensures |r| == 1 <==> slot.Some?
    ensures forall d :: d in r ==> d == Delivery(slot.value, payload)
  {
    match slot
    case None => []
    case Some(h) => [Delivery(h, payload)]
  }

  /** Raising only when a record was produced: the "parsed and a handler exists" guard of the message callbacks. */
  function RaiseIfSome<T>(slot: Option<Handler>, record: Option<T>): (r: seq<Delivery<T>>)
    ensures |r| <= 1
    ensures |r| == 1 <==> slot.Some? && record.Some?
    ensures forall d :: d in r ==> d == Delivery(slot.value, record.value)
  {
    match record
    case None => []
    case Some(x) => Raise(slot, x)
  }

  datatype SlotOperation = Add(handler: Handler) | Remove(handler: Handler)

  /** The slot after a sequence of `add`/`remove` accessor calls. */
  function ApplyAll(slot: Option<Handler>, ops: seq<SlotOperation>): Option<Handler>
    decreases |ops|
  {
    if ops == [] then slot
    else
      var next := match ops[0]
        case Add(h) => AddHandler(slot, h)
        case Remove(h) => RemoveHandler(slot, h);
      ApplyAll(next, ops[1..])
  }

  /** A registered handler stays registered, whatever else is added, until it is itself removed. */
  lemma {:induction false} FirstHandlerKept(h: Handler, ops: seq<SlotOperation>)
    requires Remove(h) !in ops
    ensures ApplyAll(Some(h), ops) == Some(h)
  {
    if ops != [] {
      assert Remove(h) !in ops[1..] by {
        assert forall i :: 0 <= i < |ops[1..]| ==> ops[1..][i] == ops[i + 1];
      }
      FirstHandlerKept(h, ops[1..]);
    }
  }

  /** Starting empty, with only `add` calls, the first handler added is the one that is stored. */
  lemma FirstRegistrantWins(ops: seq<SlotOperation>)
    requires ops != [] && ops[0].Add?
    requires forall i :: 0 <= i < |ops| ==> ops[i].Add?
    ensures ApplyAll(None, ops) == Some(ops[0].handler)
  {
    var h := ops[0].handler;
    assert Remove(h) !in ops[1..] by {
      forall i | 0 <= i < |ops[1..]| ensures ops[1..][i] != Remove(h) {
        assert ops[1..][i] == ops[i + 1];
      }
    }
    FirstHandlerKept(h, ops[1..]);
  }

  /** After the stored handler is removed, the next handler added takes over. */
  lemma ReplaceAfterRemove(h: Handler, h': Handler)
    ensures ApplyAll(Some(h), [Remove(h), Add(h')]) == Some(h')
  {
    assert [Remove(h), Add(h')][1..] == [Add(h')];
    assert [Add(h')][1..] == [];
    assert ApplyAll(None, [Add(h')]) == ApplyAll(Some(h'), []);
  }
}
